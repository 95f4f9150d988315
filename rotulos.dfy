/** Label lists (skills, roles) whose entries are kept distinct under an
    ordinal, case-insensitive comparison. */
module Rotulos {

  /** Upper-case mapping of one character. Ordinal case-insensitive
      comparison is modelled for ASCII letters and the Latin-1 letters
      U+00E0..U+00FE (except U+00F7, the division sign); every other
      character compares exactly. */
  function Fold(c: char): (u: char)
    ensures 'a' <= c <= 'z' ==> u as int == c as int - 32
    ensures '\U{e0}' <= c <= '\U{fe}' && c != '\U{f7}' ==> u as int == c as int - 32
    ensures c == '\U{f7}' ==> u == c
    ensures !('a' <= c <= 'z') && !('\U{e0}' <= c <= '\U{fe}') ==> u == c
    ensures u != c ==> 'A' <= u <= 'Z' || '\U{c0}' <= u <= '\U{de}'
  {
    if 'a' <= c <= 'z' then (c as int - 32) as char
    else if '\U{e0}' <= c <= '\U{fe}' && c != '\U{f7}' then (c as int - 32) as char
    else c
  }

  /** The string with every character upper-cased by Fold. */
  function Upper(s: string): (u: string)
    ensures |u| == |s|
  {
    seq(|s|, i requires 0 <= i < |s| => Fold(s[i]))
  }

  /** Equality ignoring case. */
  predicate EqualsIgnoreCase(a: string, b: string)
  {
    Upper(a) == Upper(b)
  }

  /** Some entry of `lista` equals `valor` ignoring case. */
  predicate ContainsIgnoreCase(lista: seq<string>, valor: string)
  {
    exists i :: 0 <= i < |lista| && EqualsIgnoreCase(lista[i], valor)
  }

  /** No two entries of `lista` are equal ignoring case. */
  predicate NoDuplicates(lista: seq<string>)
  {
    forall i, j :: 0 <= i < j < |lista| ==> !EqualsIgnoreCase(lista[i], lista[j])
  }

  /** The private `Add` helper: appends `valor` unless the list already holds
      it ignoring case. */
  function Add(lista: seq<string>, valor: string): (r: seq<string>)
    ensures ContainsIgnoreCase(lista, valor) ==> r == lista
    ensures !ContainsIgnoreCase(lista, valor) ==> r == lista + [valor]
    ensures ContainsIgnoreCase(r, valor)
    ensures NoDuplicates(lista) ==> NoDuplicates(r)
  {
    if ContainsIgnoreCase(lista, valor) then lista
    else
      var r := lista + [valor];
      assert EqualsIgnoreCase(r[|lista|], valor);
      r
  }

  /** Adding every label of `valores` in order, as a `foreach` over them
      calling `Add` does. */
  function AddAll(lista: seq<string>, valores: seq<string>): seq<string>
    decreases |valores|
  {
    if valores == [] then lista
    else Add(AddAll(lista, valores[..|valores| - 1]), valores[|valores| - 1])
  }

  /** Containment survives extending the list at its end. */
  lemma ContainsExtends(lista: seq<string>, maior: seq<string>, valor: string)
    requires lista <= maior
    requires ContainsIgnoreCase(lista, valor)
    ensures ContainsIgnoreCase(maior, valor)
  {
    var i :| 0 <= i < |lista| && EqualsIgnoreCase(lista[i], valor);
    assert maior[i] == lista[i];
  }

  /** Every entry of a list is contained in it. */
  lemma ContainsOwn(lista: seq<string>)
    ensures forall k :: 0 <= k < |lista| ==> ContainsIgnoreCase(lista, lista[k])
  {
    forall k | 0 <= k < |lista|
      ensures ContainsIgnoreCase(lista, lista[k])
    {
      assert EqualsIgnoreCase(lista[k], lista[k]);
    }
  }

  /** AddAll only appends: the old list is a prefix, and at most one entry per
      label is added. */
  lemma {:induction false} AddAllExtends(lista: seq<string>, valores: seq<string>)
    ensures lista <= AddAll(lista, valores)
    ensures |AddAll(lista, valores)| <= |lista| + |valores|
    decreases |valores|
  {
    if valores != [] {
      AddAllExtends(lista, valores[..|valores| - 1]);
    }
  }

  /** AddAll keeps the list free of case-insensitive duplicates. */
  lemma {:induction false} AddAllNoDuplicates(lista: seq<string>, valores: seq<string>)
    requires NoDuplicates(lista)
    ensures NoDuplicates(AddAll(lista, valores))
    decreases |valores|
  {
    if valores != [] {
      AddAllNoDuplicates(lista, valores[..|valores| - 1]);
    }
  }

  /** After AddAll, every added label is present ignoring case. */
  lemma {:induction false} AddAllContains(lista: seq<string>, valores: seq<string>)
    ensures forall k :: 0 <= k < |valores| ==> ContainsIgnoreCase(AddAll(lista, valores), valores[k])
    decreases |valores|
  {
    if valores != [] {
      var init := valores[..|valores| - 1];
      var antes := AddAll(lista, init);
      AddAllContains(lista, init);
      forall k | 0 <= k < |valores|
        ensures ContainsIgnoreCase(AddAll(lista, valores), valores[k])
      {
        if k < |init| {
          assert valores[k] == init[k];
          ContainsExtends(antes, AddAll(lista, valores), valores[k]);
        }
      }
    }
  }

  /** Every entry AddAll appends is one of the given labels, verbatim. */
  lemma {:induction false} AddAllFrom(lista: seq<string>, valores: seq<string>)
    ensures forall k :: |lista| <= k < |AddAll(lista, valores)| ==> AddAll(lista, valores)[k] in valores
    decreases |valores|
  {
    if valores != [] {
      var init := valores[..|valores| - 1];
      AddAllFrom(lista, init);
      AddAllExtends(lista, init);
      forall k | |lista| <= k < |AddAll(lista, init)|
        ensures AddAll(lista, init)[k] in valores
      {
        assert AddAll(lista, init)[k] in init;
      }
    }
  }

  /** Adding labels that are all present already (ignoring case) changes
      nothing. */
  lemma {:induction false} AddAllPresent(lista: seq<string>, valores: seq<string>)
    requires forall k :: 0 <= k < |valores| ==> ContainsIgnoreCase(lista, valores[k])
    ensures AddAll(lista, valores) == lista
    decreases |valores|
  {
    if valores != [] {
      var init := valores[..|valores| - 1];
      assert forall k :: 0 <= k < |init| ==> init[k] == valores[k];
      AddAllPresent(lista, init);
    }
  }
}
