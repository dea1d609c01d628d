/** What the converter accumulates in its `stats` dictionary, and the ways a
    conversion can end without output. */
module Report {
  import opened Wrappers
  import opened Json
  import opened Schema

  /** How a warning names its level: `target_level.get('title', f'Level {i}')`. */
  datatype LevelLabel = Titled(title: Json) | Numbered(position: nat)

  /** One entry of `stats['warnings']`; `factIndex` is the fact's own `index`
      value, None where the message prints `?`. */
  datatype Warning =
    | MissingEssential(level: LevelLabel, factIndex: Option<Json>, field: string)
    | NoOperator(level: LevelLabel, factIndex: Option<Json>)

  /** One entry of `stats['field_mappings']`: `level.<field>` or
      `fact.<field>` mapped to a source key chosen at a prompt. */
  datatype FieldChoice = FieldChoice(scope: Scope, field: string, source: string)

  datatype Stats = Stats(
    levelsProcessed: nat,
    factsProcessed: nat,
    factsSkipped: nat,
    warnings: seq<Warning>,
    fieldMappings: seq<FieldChoice>)

  /** The module-level `stats` dictionary at start-up. */
  const InitialStats := Stats(0, 0, 0, [], [])

  /** `source_fact.get('index', '?')` */
  function FactIndexLabel(fact: Obj): Option<Json> {
    Lookup(fact, "index")
  }

  /** Why `convert_json` returned None. */
  datatype Abort =
    | NoContainer
    | NoLevels
    | FieldNotMapped(scope: Scope, field: string)
    | NoFacts

  /** How a conversion ends without output: `convert_json` returned None, the
      typed answers ran out (`input()` raised EOFError), or a wrongly typed JSON
      value made Python raise an exception the converter does not catch. */
  datatype Failure = Aborted(reason: Abort) | EndOfInput | Crash
}
