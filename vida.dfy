/** The person aggregate: current stage, append-only timeline, and the skill
    and role lists that only grow through the case-insensitive `Add`. */
module Vida {
  import opened Tipos
  import opened Rotulos
  import opened Fases

  /** The event category table applied by `RegistrarEvento` whatever the
      current stage: the skill a category grants (none or one). */
  function HabilidadesDoEvento(t: TipoEvento): (r: seq<string>)
    ensures |r| <= 1
    ensures r != [] <==> t in {Escola, Conquista, Trabalho, Projeto, Religiao, MudancaCidade}
  {
    match t
    case Escola => ["Aprendizagem"]
    case Conquista => ["Autoconfian\U{e7}a"]
    case Trabalho => ["Cumprir prazos"]
    case Projeto => ["Vis\U{e3}o de produto"]
    case Religiao => ["Dimens\U{e3}o espiritual"]
    case MudancaCidade => ["Adaptabilidade"]
    case _ => []
  }

  /** The role a category grants (none or one). */
  function PapeisDoEvento(t: TipoEvento): (r: seq<string>)
    ensures |r| <= 1
    ensures r != [] <==> t in {Trabalho, Projeto}
  {
    match t
    case Trabalho => ["Profissional"]
    case Projeto => ["Autor/Construtor"]
    case _ => []
  }

  /** The event that opens every timeline. */
  function EventoNascimento(nascimento: DateTime): EventoDeVida
  {
    EventoDeVida(nascimento, Nascimento, "Nasci")
  }

  /** The event `AvancarFase` records for a stage change. */
  function EventoAmadureceu(agora: DateTime, nova: FaseDeVida, motivo: string): EventoDeVida
  {
    EventoDeVida(agora, Amadureceu, "Evoluiu para " + NomeDaFase(nova) + " (" + motivo + ")")
  }

  /** The event `DefinirProjeto` records. */
  function EventoProjeto(agora: DateTime, novoProjeto: string): EventoDeVida
  {
    EventoDeVida(agora, Projeto, "Projeto de natureza: " + novoProjeto)
  }

  class Pessoa {
    const nome: string
    const nascimento: DateTime
    var projetoNatureza: string
    /** The active stage strategy, identified by its kind (the strategies are
        stateless). */
    var fase: FaseDeVida
    var habilidades: seq<string>
    var papeis: seq<string>
    var linhaDoTempo: seq<EventoDeVida>

    /** The aggregate's invariant: no label list holds two entries equal
        ignoring case; the birth event opens the timeline; the childhood
        skills and the role "Filho" are never lost; the skills granted by
        the current stage are all present. */
    ghost predicate Valid()
      reads this
    {
      && NoDuplicates(habilidades)
      && NoDuplicates(papeis)
      && |linhaDoTempo| >= 1 && linhaDoTempo[0] == EventoNascimento(nascimento)
      && AoEntrar(Infancia) <= habilidades
      && ["Filho"] <= papeis
      && forall k :: 0 <= k < |AoEntrar(fase)| ==> ContainsIgnoreCase(habilidades, AoEntrar(fase)[k])
    }

    /** A person is born in childhood with its entry skills, the role
        "Filho" and a timeline holding only the birth. */
    constructor (nome: string, nascimento: DateTime, projetoInicial: string)
      ensures Valid()
      ensures this.nome == nome && this.nascimento == nascimento
      ensures projetoNatureza == projetoInicial
      ensures fase == Infancia
      ensures habilidades == ["Curiosidade", "Conviver em grupo"]
      ensures papeis == ["Filho"]
      ensures linhaDoTempo == [EventoDeVida(nascimento, Nascimento, "Nasci")]
    {
      this.nome := nome;
      this.nascimento := nascimento;
      projetoNatureza := projetoInicial;
      fase := Infancia;
      habilidades := AoEntrar(Infancia);
      papeis := ["Filho"];
      linhaDoTempo := [EventoNascimento(nascimento)];
      new;
      ContainsOwn(habilidades);
    }

    /** Moving to the current stage does nothing. Moving to any other stage,
        forwards or backwards, switches the stage, records one `Amadureceu`
        event stamped `agora` and merges the new stage's entry skills. */
    method AvancarFase(nova: FaseDeVida, motivo: string, agora: DateTime)
      requires Valid()
      modifies this
      ensures Valid()
      ensures old(fase) == nova ==>
        fase == old(fase) && linhaDoTempo == old(linhaDoTempo)
        && habilidades == old(habilidades) && papeis == old(papeis)
      ensures old(fase) != nova ==>
        fase == nova
        && linhaDoTempo == old(linhaDoTempo) + [EventoAmadureceu(agora, nova, motivo)]
        && habilidades == AddAll(old(habilidades), AoEntrar(nova))
        && papeis == old(papeis)
      ensures old(habilidades) <= habilidades
      ensures (forall k :: 0 <= k < |AoEntrar(nova)| ==> ContainsIgnoreCase(old(habilidades), AoEntrar(nova)[k]))
        ==> habilidades == old(habilidades)
      ensures projetoNatureza == old(projetoNatureza)
    {
      if nova == fase {
        return;
      }
      fase := nova;
      linhaDoTempo := linhaDoTempo + [EventoAmadureceu(agora, fase, motivo)];
      var entrada := AoEntrar(fase);
      ghost var antes := habilidades;
      for i := 0 to |entrada|
        invariant habilidades == AddAll(antes, entrada[..i])
        invariant fase == nova && papeis == old(papeis) && projetoNatureza == old(projetoNatureza)
        invariant linhaDoTempo == old(linhaDoTempo) + [EventoAmadureceu(agora, nova, motivo)]
      {
        assert entrada[..i + 1][..i] == entrada[..i];
        habilidades := Add(habilidades, entrada[i]);
      }
      assert entrada[..|entrada|] == entrada;
      AddAllNoDuplicates(antes, entrada);
      AddAllExtends(antes, entrada);
      AddAllContains(antes, entrada);
      if forall k :: 0 <= k < |entrada| ==> ContainsIgnoreCase(antes, entrada[k]) {
        AddAllPresent(antes, entrada);
      }
    }

    /** Overwrites the project focus and records one `Projeto` event stamped
        `agora`; the category table is not applied. */
    method DefinirProjeto(novoProjeto: string, agora: DateTime)
      requires Valid()
      modifies this
      ensures Valid()
      ensures projetoNatureza == novoProjeto
      ensures linhaDoTempo == old(linhaDoTempo) + [EventoProjeto(agora, novoProjeto)]
      ensures fase == old(fase) && habilidades == old(habilidades) && papeis == old(papeis)
    {
      projetoNatureza := novoProjeto;
      linhaDoTempo := linhaDoTempo + [EventoProjeto(agora, novoProjeto)];
    }

    /** Adds a skill unless present ignoring case. */
    method AddHabilidade(valor: string)
      requires Valid()
      modifies this
      ensures Valid()
      ensures habilidades == Add(old(habilidades), valor)
      ensures fase == old(fase) && papeis == old(papeis)
      ensures linhaDoTempo == old(linhaDoTempo) && projetoNatureza == old(projetoNatureza)
    {
      ghost var antes := habilidades;
      habilidades := Add(habilidades, valor);
      forall k | 0 <= k < |AoEntrar(fase)|
        ensures ContainsIgnoreCase(habilidades, AoEntrar(fase)[k])
      {
        ContainsExtends(antes, habilidades, AoEntrar(fase)[k]);
      }
    }

    /** Adds a role unless present ignoring case. */
    method AddPapel(valor: string)
      requires Valid()
      modifies this
      ensures Valid()
      ensures papeis == Add(old(papeis), valor)
      ensures fase == old(fase) && habilidades == old(habilidades)
      ensures linhaDoTempo == old(linhaDoTempo) && projetoNatureza == old(projetoNatureza)
    {
      papeis := Add(papeis, valor);
    }

    /** Appends `e` to the timeline, returns the current stage's reaction
        (which the original prints) and applies the category table to the
        skills and roles. */
    method RegistrarEvento(e: EventoDeVida) returns (reacao: string)
      requires Valid()
      modifies this
      ensures Valid()
      ensures linhaDoTempo == old(linhaDoTempo) + [e]
      ensures reacao == ProcessarEvento(fase, e, projetoNatureza)
      ensures habilidades == AddAll(old(habilidades), HabilidadesDoEvento(e.tipo))
      ensures papeis == AddAll(old(papeis), PapeisDoEvento(e.tipo))
      ensures fase == old(fase) && projetoNatureza == old(projetoNatureza)
    {
      linhaDoTempo := linhaDoTempo + [e];
      reacao := ProcessarEvento(fase, e, projetoNatureza);
      match e.tipo {
        case Escola =>
          AddHabilidade("Aprendizagem");
        case Conquista =>
          AddHabilidade("Autoconfian\U{e7}a");
        case Trabalho =>
          AddPapel("Profissional");
          AddHabilidade("Cumprir prazos");
        case Projeto =>
          AddPapel("Autor/Construtor");
          AddHabilidade("Vis\U{e3}o de produto");
        case Religiao =>
          AddHabilidade("Dimens\U{e3}o espiritual");
        case MudancaCidade =>
          AddHabilidade("Adaptabilidade");
        case _ =>
      }
    }
  }

  /** Categories outside the table leave both label lists unchanged. */
  lemma OutsideTableNoEffect(t: TipoEvento, habilidades: seq<string>, papeis: seq<string>)
    requires t !in {Escola, Conquista, Trabalho, Projeto, Religiao, MudancaCidade}
    ensures AddAll(habilidades, HabilidadesDoEvento(t)) == habilidades
    ensures AddAll(papeis, PapeisDoEvento(t)) == papeis
  {
  }
}
