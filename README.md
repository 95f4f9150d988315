# vida-00 in Dafny

A model of the life-story demo `Program.cs`. A person (`Pessoa`) is always in
one of three life stages (`FaseDeVida`: `Infancia`, `Adolescencia`,
`Adulto`). Each stage is a stateless strategy with two members. `AoEntrar`
lists the skills granted when the stage is entered. `ProcessarEvento` gives
the stage's reaction sentence to an event (`EventoDeVida`: date, category
`TipoEvento`, description). The person keeps an append-only timeline and two
label lists, skills (`Habilidades`) and roles (`Papeis`). Under the class's
own operations, the private `Add` helper keeps both lists free of entries
that are equal ignoring case.

Modules:

- `Tipos` (tipos.dfy): the enumerations, a `DateTime` value and the event record.
- `Rotulos` (rotulos.dfy): ordinal case-insensitive comparison, `Add`, and
  `AddAll` (a `foreach` over `Add`) with its lemmas. The lemmas give the
  no-duplicates invariant, append-only growth and presence of every added label.
- `Fases` (fases.dfy): `AoEntrar` and `ProcessarEvento` for the three stages.
- `Vida` (vida.dfy): the class `Pessoa`, with `seq` fields that its methods
  reassign, and the category table used by `RegistrarEvento`. `Pessoa.Valid()`
  is the aggregate invariant. Every method keeps it, and every method's
  `ensures` gives the whole new state in terms of the old one.
- `Idade` (idade.dfy): the summary's `CalculateAge` as written, and a
  corrected age function (see Findings).
- `Cenarios` (cenarios.dfy): client methods that drive a `Pessoa` through
  concrete calls. They assert what the contracts alone determine: a school
  event in childhood, a repeated stage change, an adult's project reaction
  and the role a project event grants.

Modelling decisions:

- `DateTime.Now` in `AvancarFase` and `DefinirProjeto` becomes a parameter `agora`.
- `RegistrarEvento` returns the reaction, which the original prints.
- `StringComparer.OrdinalIgnoreCase` is modelled by `Rotulos.Fold`. It
  upper-cases a–z and U+00E0..U+00FE, except U+00F7. Every other character
  compares exactly. This covers every label
  the program uses.
- The stage object `_faseAtual` is represented by its kind (`fase`). The
  strategies hold no state, so replacing one with a fresh instance is just
  a change of kind.
- Interpolated descriptions (`Evoluiu para {Fase} ({motivo})` and
  `Projeto de natureza: {novoProjeto}`) are written as string concatenation.
  The stage name is the enum member's name.
- Reaction sentences are written as the stage label (`"Infância: "`, ...)
  followed by the rest of the sentence. The concatenation is the same text
  as the source's literal.
- A move to an earlier stage is performed like any other: it records an
  `Amadureceu` event and merges that stage's entry skills. Only a move to
  the current stage is a no-op.

## Model

| member | source | states |
|---|---|---|
| Rotulos.Fold | Program.cs:174 | case-insensitive comparison maps lower-case ASCII letters and the Latin-1 letters U+00E0..U+00FE (except U+00F7) to their upper case, and leaves every other character alone |
| Rotulos.Add | Program.cs:172-176 | a label already present ignoring case leaves the list unchanged; otherwise it is appended at the end with every earlier entry untouched; afterwards the label is present, and a duplicate-free list stays duplicate-free |
| Rotulos.AddAllNoDuplicates | Program.cs:114 | merging any labels one by one through `Add` keeps a list free of case-insensitive duplicates |
| Rotulos.AddAllExtends | Program.cs:114 | merging only appends: the old list is a prefix of the result, and at most one entry per merged label is added |
| Rotulos.AddAllContains | Program.cs:114 | after merging, every merged label is present ignoring case |
| Rotulos.AddAllFrom | Program.cs:114 | every entry the merge appends is one of the merged labels, verbatim |
| Rotulos.AddAllPresent | Program.cs:114 | merging labels that are all present already (ignoring case) leaves the list unchanged, so re-entering a stage adds no skill |
| Fases.AoEntrar | Program.cs:32-65 | each stage grants exactly two entry skills, and no two of them are equal ignoring case |
| Fases.ReacaoInfancia | Program.cs:35-41 | childhood has its own sentence exactly for School, Achievement and Faith; every other category gets the default sentence |
| Fases.ReacaoAdolescencia | Program.cs:51-57 | adolescence has its own sentence exactly for School, Project and Relationship; every other category gets the default sentence |
| Fases.ReacaoAdulto | Program.cs:67-73 | adulthood has its own sentence exactly for Job, Relocation and Project; every other category gets the default sentence |
| Fases.ProcessarEvento | Program.cs:35-73 | every reaction starts with its stage's label; a category the stage does not single out gets the stage's default sentence, and a singled-out one never does; the adult project sentence contains the current project focus |
| Fases.ReactionDependsOnCategory | Program.cs:35-73 | the reaction is a function of stage and event category alone, and of the project focus only for the adult project sentence |
| Fases.StagesReactDifferently | Program.cs:35-73 | two different stages never give the same reaction, whatever the events and the project foci |
| Vida.HabilidadesDoEvento | Program.cs:130-152 | exactly the categories School, Achievement, Job, Project, Faith and Relocation grant a skill, one each |
| Vida.PapeisDoEvento | Program.cs:138-145 | exactly the categories Job and Project grant a role, one each |
| Vida.OutsideTableNoEffect | Program.cs:130-152 | a category outside the table leaves skills and roles unchanged |
| Vida.Pessoa.constructor | Program.cs:89-99 | a new person is in childhood, holds skills "Curiosidade", "Conviver em grupo" and role "Filho", and has a timeline of only the birth event dated at the birth date; the invariant holds |
| Vida.Pessoa.AvancarFase | Program.cs:101-115 | moving to the current stage changes nothing; moving to another stage (either direction) sets the stage, appends exactly one `Amadureceu` event, and makes the skills `Rotulos.AddAll` of the old skills and the new stage's entry skills, which is what the `foreach` over `Add` computes; roles and project focus stay; skills only grow; the invariant is kept |
| Vida.Pessoa.DefinirProjeto | Program.cs:117-121 | the project focus becomes the new one and exactly one `Projeto` event is appended; stage, skills and roles are unchanged |
| Vida.Pessoa.RegistrarEvento | Program.cs:123-153 | the event is appended to the timeline; the returned reaction is the current stage's; skills and roles change only by the category table, through `Add`; stage and project focus are unchanged; the invariant is kept |
| Vida.Pessoa.AddHabilidade | Program.cs:169 | the skills become `Add` of the old skills; nothing else changes |
| Vida.Pessoa.AddPapel | Program.cs:170 | the roles become `Add` of the old roles; nothing else changes |
| Idade.CalculateAge | Program.cs:178-187 | as written: the event's year minus 2005, whatever birth date is passed |
| Idade.CalculateAgeDisagrees | Program.cs:178-187 | the age as written ignores the birth date argument and month and day; concrete dates where it differs from the completed years |
| Idade.IdadeEmAnos | Program.cs:178-187 | completed years of life: the last anniversary is on or before the date and the next one after it; never negative for a date not before the birth |

## Left out

- Console output: the printing in `RegistrarEvento` (Program.cs:128) and all of `ApresentarResumo` (Program.cs:155-166). This includes the date-sorted timeline display and the date and age formatting, which are presentation only.
- `DemoVida.Rodar` and the top-level call (Program.cs:1, 190-243) are a literal driver script. `Cenarios` plays that role for a few calls.
- The wall clock (`DateTime.Now`) is a parameter.
- Dates are unconstrained (year, month, day) triples without a time of day. The program's dates are always valid calendar dates, and the ones stamped by `DateTime.Now` (Program.cs:113, 120) also carry the time of day. No proof depends on either.
- Outside mutation of the exposed lists is not modelled. `Habilidades`, `Papeis` and `LinhaDoTempo` are public getters of mutable lists (Program.cs:85-87), so any caller can add a case-insensitive duplicate, clear a list or reorder the timeline without going through `Add`. The model assumes every change goes through `Pessoa`'s own operations, and `Valid()` excludes the states outside mutation can produce.
- The full upper-case mapping of `OrdinalIgnoreCase`. Only a–z and U+00E0..U+00FE except U+00F7 are upper-cased (see `Rotulos.Fold`). Every other character, including `ÿ` (U+00FF) and Greek and Cyrillic letters, compares exactly.
- Null references are not modelled: every argument (event, description, project text, label) is a value. In the original, `RegistrarEvento(null)` appends `null` to the timeline (Program.cs:125) and then fails with a null-reference exception when the stage reads the category (Program.cs:127). `DefinirProjeto(null)` stores null, and the adult project sentence then quotes it as empty text (Program.cs:71).
- The `_ => _faseAtual` arm of the stage switch (Program.cs:110) cannot be reached with a closed enumeration.
- The read-only properties `Fase`, `Nome` and `Nascimento` are plain field reads of the class.

## Findings

| source | as written | input that shows it | evidently intended | confidence | as-written member | corrected member |
|---|---|---|---|---|---|---|
| Program.cs:178-187 | `CalculateAge` overwrites its `birthDate` argument with 2005-02-21 and subtracts only the years | birth 2005-02-21, date 2007-01-01 gives 2 (completed years: 1); birth 2000-01-01, date 2010-06-01 gives 5 (completed years: 10) | the completed years between the given birth date and the event date | medium, not executed | Idade.CalculateAge (shown by Idade.CalculateAgeDisagrees) | Idade.IdadeEmAnos |
