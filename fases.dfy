/** The three stateless stage strategies: the skills granted on entering a
    stage and the stage's reaction sentence to an event. */
module Fases {
  import opened Tipos
  import opened Rotulos

  /** Skills granted the moment a stage becomes active. */
  function AoEntrar(f: FaseDeVida): (r: seq<string>)
    ensures |r| == 2
    ensures NoDuplicates(r)
  {
    var r := match f
      case Infancia => ["Curiosidade", "Conviver em grupo"]
      case Adolescencia => ["Autonomia", "Organiza\U{e7}\U{e3}o b\U{e1}sica"]
      case Adulto => ["Gest\U{e3}o do tempo", "Responsabilidade"];
    assert |r[0]| != |r[1]|;
    r
  }

  /** The stage label every reaction sentence of that stage starts with. */
  function Prefixo(f: FaseDeVida): string
  {
    match f
    case Infancia => "Inf\U{e2}ncia: "
    case Adolescencia => "Adolesc\U{ea}ncia: "
    case Adulto => "Adulto: "
  }

  /** The categories a stage has a specific sentence for. */
  function Tratados(f: FaseDeVida): set<TipoEvento>
  {
    match f
    case Infancia => {Escola, Conquista, Religiao}
    case Adolescencia => {Escola, Projeto, Relacao}
    case Adulto => {Trabalho, MudancaCidade, Projeto}
  }

  /** A stage's sentence for the categories it does not single out. */
  function Padrao(f: FaseDeVida): string
  {
    Prefixo(f) + Registrado
  }

  /** The sentence of every stage's default arm, after the stage label. */
  const Registrado := "evento registrado."

  /** `sub` occurs as a contiguous part of `s`. */
  predicate IsInfix(sub: string, s: string)
  {
    exists k :: 0 <= k <= |s| - |sub| && Segment(s, k, |sub|) == sub
  }

  /** The `n` characters of `s` starting at `k`. */
  function Segment(s: string, k: nat, n: nat): string
    requires k + n <= |s|
  {
    s[k..k + n]
  }

  /** `Infancia.ProcessarEvento`: the sentence after the stage label. */
  function ReacaoInfancia(t: TipoEvento): (r: string)
    ensures t !in Tratados(Infancia) ==> r == Registrado
    ensures t in Tratados(Infancia) ==> |r| != |Registrado|
  {
    match t
    case Escola => "base afetiva e social na escola."
    case Conquista => "pequenas vit\U{f3}rias fortalecem autoestima."
    case Religiao => "primeiros s\U{ed}mbolos e refer\U{ea}ncias espirituais."
    case _ => Registrado
  }

  /** `Adolescencia.ProcessarEvento`: the sentence after the stage label. */
  function ReacaoAdolescencia(t: TipoEvento): (r: string)
    ensures t !in Tratados(Adolescencia) ==> r == Registrado
    ensures t in Tratados(Adolescencia) ==> |r| != |Registrado|
  {
    match t
    case Escola => "escolhas formativas mais conscientes."
    case Projeto => "experimenta\U{e7}\U{e3}o vocacional."
    case Relacao => "v\U{ed}nculos e responsabilidade afetiva."
    case _ => Registrado
  }

  /** `Adulto.ProcessarEvento`: the sentence after the stage label; the
      project sentence quotes the person's current project focus. */
  function ReacaoAdulto(t: TipoEvento, projetoNatureza: string): (r: string)
    ensures t !in Tratados(Adulto) ==> r == Registrado
    ensures t in Tratados(Adulto) ==> |r| != |Registrado|
  {
    match t
    case Trabalho => "consolida\U{e7}\U{e3}o de carreira e entregas."
    case MudancaCidade => "mobilidade estrat\U{e9}gica e rede profissional."
    case Projeto => "projeto orienta decis\U{f5}es (\"" + projetoNatureza + "\")."
    case _ => Registrado
  }

  /** The reaction of stage `f` to event `e`: the stage label followed by the
      stage's sentence for the event's category. Of the person, only the
      Adult stage's project sentence reads anything, the current project
      focus, passed here as `projetoNatureza`. */
  function ProcessarEvento(f: FaseDeVida, e: EventoDeVida, projetoNatureza: string): (r: string)
    ensures Prefixo(f) <= r
    ensures e.tipo !in Tratados(f) ==> r == Padrao(f)
    ensures e.tipo in Tratados(f) ==> r != Padrao(f)
    ensures f == Adulto && e.tipo == Projeto ==> IsInfix(projetoNatureza, r)
  {
    var frase := match f
      case Infancia => ReacaoInfancia(e.tipo)
      case Adolescencia => ReacaoAdolescencia(e.tipo)
      case Adulto => ReacaoAdulto(e.tipo, projetoNatureza);
    var r := Prefixo(f) + frase;
    assert f == Adulto && e.tipo == Projeto ==>
      Segment(r, |Prefixo(f)| + 27, |projetoNatureza|) == projetoNatureza;
    r
  }

  /** The reaction depends only on the stage and the event's category, and on
      the project focus only for the Adult stage's project sentence. */
  lemma ReactionDependsOnCategory(f: FaseDeVida, e1: EventoDeVida, e2: EventoDeVida, p1: string, p2: string)
    requires e1.tipo == e2.tipo
    requires f == Adulto && e1.tipo == Projeto ==> p1 == p2
    ensures ProcessarEvento(f, e1, p1) == ProcessarEvento(f, e2, p2)
  {
  }

  /** Different stages never give the same reaction, whatever the events and
      project foci. */
  lemma StagesReactDifferently(f1: FaseDeVida, f2: FaseDeVida, e1: EventoDeVida, e2: EventoDeVida, p1: string, p2: string)
    requires f1 != f2
    ensures ProcessarEvento(f1, e1, p1) != ProcessarEvento(f2, e2, p2)
  {
    LabelsDiffer(f1, f2, ProcessarEvento(f1, e1, p1), ProcessarEvento(f2, e2, p2));
  }

  /** Two texts that start with the labels of different stages differ: the
      three labels already differ in their third character. */
  lemma LabelsDiffer(f1: FaseDeVida, f2: FaseDeVida, r1: string, r2: string)
    requires f1 != f2
    requires Prefixo(f1) <= r1 && Prefixo(f2) <= r2
    ensures r1 != r2
  {
    assert r1[2] == Prefixo(f1)[2] && r2[2] == Prefixo(f2)[2];
  }
}
