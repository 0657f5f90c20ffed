// Value types the MDL front end shares with the rest of the engine
// (src/mdl/types.rs and src/mdl/result.rs): material constants, symbol
// kinds and the engine's error values.
module MdlTypes {
  import opened Wrappers

  /** A `constants` declaration: ambient, diffuse and specular reflection per channel, and optional intensities. */
  datatype ObjConst = ObjConst(
    kar: real, kdr: real, ksr: real,
    kag: real, kdg: real, ksg: real,
    kab: real, kdb: real, ksb: real,
    ir: Option<real>, ig: Option<real>, ib: Option<real>)

  /** The kind of a symbol, without its value, used for type checking. */
  datatype Kind = Const | Coord | Knob | KnobList

  /** A parsed name. */
  datatype Symbol = Symbol(name: string)

  /**
   * The engine's errors. The missing-symbol case is raised under the name
   * UndefinedSymbol by the symbol tables; the separate SymbolNotFound name of
   * the error enum is the same case here.
   */
  datatype EngineError =
    | Syntax(line: nat, input: string)
    | UndefinedSymbol(name: string)
    | SymbolTypeMismatch(name: string, expected: Kind, found: Kind)
    | Runtime(line: nat, reason: RuntimeError)

  /** Runtime failures; Io stands for any failed write or spawn, whose details are not modelled. */
  datatype RuntimeError = Io | MultipleFrameNumber | FramesUndefined | Semantics(what: string) | Other(what: string)
}
