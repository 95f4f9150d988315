/** Callers of `Pessoa` that show what its contracts determine on their own,
    following a person through concrete calls. */
module Cenarios {
  import opened Tipos
  import opened Rotulos
  import opened Fases
  import opened Vida

  /** A school event in childhood gives the childhood school sentence and
      lengthens the timeline to two events. */
  method EscolaNaInfancia(d: DateTime)
  {
    var p := new Pessoa("Jane", DateTime(2000, 1, 1), "seed");
    var r := p.RegistrarEvento(EventoDeVida(d, Escola, "Entrada no fundamental"));
    assert r == Prefixo(Infancia) + "base afetiva e social na escola.";
    assert |p.linhaDoTempo| == 2;
  }

  /** A school event adds the skill "Aprendizagem" and no role. */
  method AprendizagemNaEscola(d: DateTime)
  {
    var p := new Pessoa("Jane", DateTime(2000, 1, 1), "seed");
    var _ := p.RegistrarEvento(EventoDeVida(d, Escola, "Entrada no fundamental"));
    assert p.habilidades == ["Curiosidade", "Conviver em grupo", "Aprendizagem"] by {
      assert !ContainsIgnoreCase(["Curiosidade", "Conviver em grupo"], "Aprendizagem");
      assert HabilidadesDoEvento(Escola) == ["Aprendizagem"];
      assert AddAll(["Curiosidade", "Conviver em grupo"], ["Aprendizagem"])
        == Add(["Curiosidade", "Conviver em grupo"], "Aprendizagem");
    }
    assert p.papeis == ["Filho"];
  }

  /** Advancing twice to the same stage records one stage change only. */
  method AvancoRepetido(agora: DateTime)
  {
    var p := new Pessoa("Jane", DateTime(2000, 1, 1), "seed");
    p.AvancarFase(Adolescencia, "Mais autonomia", agora);
    assert |p.linhaDoTempo| == 2;
    var h := p.habilidades;
    p.AvancarFase(Adolescencia, "de novo", agora);
    assert |p.linhaDoTempo| == 2 && p.habilidades == h;
  }

  /** An adult's reaction to a project event quotes the current project
      focus. */
  method ProjetoAdulto(agora: DateTime, d: DateTime)
  {
    var p := new Pessoa("Jane", DateTime(2000, 1, 1), "seed");
    p.AvancarFase(Adulto, "Faculdade", agora);
    p.DefinirProjeto("X", agora);
    var r := p.RegistrarEvento(EventoDeVida(d, Projeto, "Comecei a empresa"));
    assert IsInfix("X", r);
  }

  /** A project event adds the role "Autor/Construtor"; setting the project
      focus adds none. */
  method PapelDeAutor(agora: DateTime, d: DateTime)
  {
    var p := new Pessoa("Jane", DateTime(2000, 1, 1), "seed");
    p.DefinirProjeto("X", agora);
    assert p.papeis == ["Filho"];
    var _ := p.RegistrarEvento(EventoDeVida(d, Projeto, "Comecei a empresa"));
    assert p.papeis == ["Filho", "Autor/Construtor"] by {
      assert !ContainsIgnoreCase(["Filho"], "Autor/Construtor");
      assert PapeisDoEvento(Projeto) == ["Autor/Construtor"];
      assert AddAll(["Filho"], ["Autor/Construtor"]) == Add(["Filho"], "Autor/Construtor");
    }
    assert p.papeis == ["Filho", "Autor/Construtor"];
  }
}
