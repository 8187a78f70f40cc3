/** What a view accessor gives back: a value, or the exception it raises. */
module Outcomes {
  import opened Cursor

  /** The exceptions of the view layer, each with the value that caused it. */
  datatype Failure =
    | ReadFailed                        // the decoder ran out of bytes
    | UnknownVersion(version: U32)
    | UnknownSize(mapSize: U32)
    | UnknownDifficulty(code: Byte)
    | UnknownSubterranean(flag: Byte)
    | UnknownHuman(flag: Byte)
    | UnknownComputer(flag: Byte)
    | UnknownAiTactic(code: Byte)       // raised through an undefined constant
    | NoInfo                            // the slot has no info block

  datatype Outcome<+T> = Value(value: T) | Raised(failure: Failure)

  /** PlayerError is a subclass of MapError. */
  predicate IsPlayerError(f: Failure)
  {
    f.UnknownHuman? || f.UnknownComputer?
  }

  /** The AI-tactic table raises through a constant that is never defined,
      so that failure, like a missing info block, is not a MapError. */
  predicate IsMapError(f: Failure)
  {
    !(f.UnknownAiTactic? || f.NoInfo?)
  }
}
