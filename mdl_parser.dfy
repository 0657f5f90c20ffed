// The MDL symbol tables and the file-level parse (src/mdl/parser.rs):
// typed lookups that report missing names and kind mismatches, and
// parse_file, which numbers lines from 1, stops at the first line that
// does not parse and keeps the commands of the lines that hold one.
module MdlParser {
  import opened Wrappers
  import opened MdlTypes
  import opened MdlAst
  import Lighting

  /** A symbol's value (src/mdl/types.rs). */
  datatype Type =
    | ObjConstValue(oc: ObjConst)
    | CoordValue
    | KnobValue(v: real)
    | KnobListValue(vs: seq<real>)

  /** The kind of a value, for type checking. */
  function KindOf(t: Type): (k: Kind)
    ensures k == Const <==> t.ObjConstValue?
    ensures k == Coord <==> t.CoordValue?
    ensures k == Knob <==> t.KnobValue?
    ensures k == KnobList <==> t.KnobListValue?
  {
    match t
    case ObjConstValue(_) => Const
    case CoordValue => Coord
    case KnobValue(_) => Knob
    case KnobListValue(_) => KnobList
  }

  /** The kinds of a table of values. */
  function KindsOf(table: map<Symbol, Type>): (kinds: map<Symbol, Kind>)
    ensures kinds.Keys == table.Keys
    ensures forall s :: s in table ==> kinds[s] == KindOf(table[s])
  {
    map s | s in table :: KindOf(table[s])
  }

  /**
   * SymTable<Kind>::check: an absent symbol passes; a present one must be
   * declared, and declared with the requested kind. A mismatch reports the
   * declared kind as expected and the requested one as found.
   */
  function Check(table: map<Symbol, Kind>, sym: Option<Symbol>, kind: Kind): (r: Result<(), EngineError>)
    ensures r.Ok? <==> sym.None? || (sym.value in table && table[sym.value] == kind)
    ensures sym.Some? && sym.value !in table ==> r == Err(UndefinedSymbol(sym.value.name))
    ensures sym.Some? && sym.value in table && table[sym.value] != kind
            ==> r == Err(SymbolTypeMismatch(sym.value.name, table[sym.value], kind))
  {
    match sym
    case None => Ok(())
    case Some(s) =>
      if s !in table then Err(UndefinedSymbol(s.name))
      else if table[s] != kind then Err(SymbolTypeMismatch(s.name, table[s], kind))
      else Ok(())
  }

  /**
   * SymTable<Type>::find exactly as written: on a kind mismatch it reports
   * the requested kind as expected and the stored kind as found.
   */
  function FindAsWritten(table: map<Symbol, Type>, sym: Option<Symbol>, kind: Kind): (r: Result<Option<Type>, EngineError>)
    ensures r.Ok? <==> sym.None? || (sym.value in table && KindOf(table[sym.value]) == kind)
    ensures sym.Some? && sym.value in table && KindOf(table[sym.value]) != kind
            ==> r == Err(SymbolTypeMismatch(sym.value.name, kind, KindOf(table[sym.value])))
  {
    match sym
    case None => Ok(None)
    case Some(s) =>
      if s !in table then Err(UndefinedSymbol(s.name))
      else if KindOf(table[s]) == kind then Ok(Some(table[s]))
      else Err(SymbolTypeMismatch(s.name, kind, KindOf(table[s])))
  }

  /**
   * find, with the mismatch reported the way the error's message reads it
   * ("defined as <expected> but here used as <found>"): the stored kind is
   * the one expected. An absent symbol is Ok(None); a present one yields its
   * value when the kinds agree.
   */
  function Find(table: map<Symbol, Type>, sym: Option<Symbol>, kind: Kind): (r: Result<Option<Type>, EngineError>)
    ensures sym.None? ==> r == Ok(None)
    ensures r.Ok? <==> sym.None? || (sym.value in table && KindOf(table[sym.value]) == kind)
    ensures r.Ok? && sym.Some? ==> r.value == Some(table[sym.value])
    ensures sym.Some? && sym.value !in table ==> r == Err(UndefinedSymbol(sym.value.name))
  {
    match sym
    case None => Ok(None)
    case Some(s) =>
      if s !in table then Err(UndefinedSymbol(s.name))
      else if KindOf(table[s]) == kind then Ok(Some(table[s]))
      else Err(SymbolTypeMismatch(s.name, KindOf(table[s]), kind))
  }

  /** The corrected find reports exactly what check reports on the table's kinds. */
  lemma FindAgreesWithCheck(table: map<Symbol, Type>, sym: Option<Symbol>, kind: Kind)
    ensures Find(table, sym, kind).Ok? <==> Check(KindsOf(table), sym, kind).Ok?
    ensures Find(table, sym, kind).Err? ==> Find(table, sym, kind).error == Check(KindsOf(table), sym, kind).error
  {
  }

  /**
   * The find as written disagrees with check on every mismatch: it swaps
   * the two kinds, so the message names the requested kind as the declared one.
   */
  lemma FindAsWrittenSwapsKinds(table: map<Symbol, Type>, s: Symbol, kind: Kind)
    requires s in table && KindOf(table[s]) != kind
    ensures FindAsWritten(table, Some(s), kind).error.expected == kind
    ensures Check(KindsOf(table), Some(s), kind).error.expected == KindOf(table[s])
    ensures FindAsWritten(table, Some(s), kind).error != Check(KindsOf(table), Some(s), kind).error
  {
  }

  /**
   * find_props: find with kind Const, and the stored constants turned into
   * material properties. Any other kind cannot come back from a Const lookup.
   */
  function FindProps(table: map<Symbol, Type>, sym: Option<Symbol>): (r: Result<Option<Lighting.LightProps>, EngineError>)
    ensures r.Err? <==> Find(table, sym, Const).Err?
    ensures r.Err? ==> r.error == Find(table, sym, Const).error
    ensures r.Ok? && r.value.Some? ==>
              sym.Some? && sym.value in table && table[sym.value].ObjConstValue?
              && r.value.value == Lighting.FromObjConst(table[sym.value].oc)
    ensures r.Ok? && r.value.None? ==> sym.None?
  {
    var f := Find(table, sym, Const);
    if f.Err? then Err(f.error)
    else if f.value.None? then Ok(None)
    else
      match f.value.value
      case ObjConstValue(oc) => Ok(Some(Lighting.FromObjConst(oc)))
      case _ => assert false; Ok(None)
  }

  /**
   * A lookup in a table that holds one kind of value (the knob values and
   * the material properties the executors read): an absent symbol is
   * Ok(None), a declared one its value, an undeclared one UndefinedSymbol.
   */
  function Lookup<T>(table: map<Symbol, T>, sym: Option<Symbol>): (r: Result<Option<T>, EngineError>)
    ensures sym.None? ==> r == Ok(None)
    ensures sym.Some? && sym.value in table ==> r == Ok(Some(table[sym.value]))
    ensures sym.Some? && sym.value !in table ==> r == Err(UndefinedSymbol(sym.value.name))
  {
    match sym
    case None => Ok(None)
    case Some(s) => if s in table then Ok(Some(table[s])) else Err(UndefinedSymbol(s.name))
  }

  /** On a table whose values all have the requested kind, find is the plain lookup. */
  lemma LookupIsFindOfOneKind(table: map<Symbol, Type>, sym: Option<Symbol>, kind: Kind)
    requires forall s :: s in table ==> KindOf(table[s]) == kind
    ensures Find(table, sym, kind) == Lookup(table, sym)
  {
  }

  /** The parse of one whole line, as parse_file applies it: it stops within the line. */
  type LineParser = parse: string -> PResult<Option<Command>> | forall line :: Within(parse(line), line, 0)
    witness line => Failed(0)

  /** parse_line on the line from its first character, over the given number lexer. */
  function LineParserOf(lex: Lexer): (parse: LineParser)
    ensures forall line :: parse(line) == ParseLine(lex, line, 0)
  {
    line => ParseLine(lex, line, 0)
  }

  /**
   * What parse_file yields for the first |lines| lines under a line parser:
   * the numbered commands of the lines that hold one, or the syntax error
   * of the first line that fails, with the input left where the line's
   * parse stopped.
   */
  function ParseLines(parse: LineParser, lines: seq<string>): (r: Result<seq<(nat, Command)>, EngineError>)
    decreases |lines|
  {
    if |lines| == 0 then Ok([])
    else
      var prev := ParseLines(parse, lines[..|lines| - 1]);
      var last := lines[|lines| - 1];
      var p := parse(last);
      if prev.Err? then prev
      else if p.Failed? then Err(Syntax(|lines|, last[p.at..]))
      else if p.value.Some? then Ok(prev.value + [(|lines|, p.value.value)])
      else prev
  }

  /**
   * parse_file over the lines of the script, with parse_line passed in as
   * `parse` (LineParserOf(lex) for the grammar of MdlAst).
   */
  method ParseFile(parse: LineParser, lines: seq<string>) returns (r: Result<seq<(nat, Command)>, EngineError>)
    ensures r == ParseLines(parse, lines)
  {
    var cmdList: seq<(nat, Command)> := [];
    var i := 0;
    while i < |lines|
      invariant 0 <= i <= |lines|
      invariant ParseLines(parse, lines[..i]) == Ok(cmdList)
    {
      var lnum := i + 1;
      var p := parse(lines[i]);
      assert lines[..lnum][..i] == lines[..i];
      if p.Failed? {
        assert ParseLines(parse, lines[..lnum]) == Err(Syntax(lnum, lines[i][p.at..]));
        ParsedPrefixFails(parse, lines, lnum);
        return Err(Syntax(lnum, lines[i][p.at..]));
      }
      if p.value.Some? {
        cmdList := cmdList + [(lnum, p.value.value)];
      }
      i := lnum;
    }
    assert lines[..|lines|] == lines;
    return Ok(cmdList);
  }

  /** Once a prefix fails, every longer prefix fails with the same error. */
  lemma {:induction false} ParsedPrefixFails(parse: LineParser, lines: seq<string>, n: nat)
    requires n <= |lines| && ParseLines(parse, lines[..n]).Err?
    ensures ParseLines(parse, lines) == ParseLines(parse, lines[..n])
    decreases |lines| - n
  {
    if n < |lines| {
      assert lines[..n + 1][..n] == lines[..n];
      ParsedPrefixFails(parse, lines, n + 1);
    } else {
      assert lines[..n] == lines;
    }
  }

  /** The file parses exactly when every line parses. */
  lemma {:induction false} ParseLinesOk(parse: LineParser, lines: seq<string>)
    ensures ParseLines(parse, lines).Ok? <==> forall k :: 0 <= k < |lines| ==> parse(lines[k]).Parsed?
    decreases |lines|
  {
    if |lines| > 0 {
      var init := lines[..|lines| - 1];
      ParseLinesOk(parse, init);
      assert forall k :: 0 <= k < |init| ==> init[k] == lines[k];
    }
  }

  /**
   * A failure names the first line that does not parse: its number counts
   * from 1, every earlier line parses, and the input is where that line's
   * parse stopped.
   */
  lemma {:induction false} ParseLinesFirstError(parse: LineParser, lines: seq<string>)
    requires ParseLines(parse, lines).Err?
    ensures var e := ParseLines(parse, lines).error;
            e.Syntax? && 1 <= e.line <= |lines|
            && parse(lines[e.line - 1]).Failed?
            && e.input == lines[e.line - 1][parse(lines[e.line - 1]).at..]
            && forall k :: 0 <= k < e.line - 1 ==> parse(lines[k]).Parsed?
    decreases |lines|
  {
    var init := lines[..|lines| - 1];
    assert forall k :: 0 <= k < |init| ==> init[k] == lines[k];
    if ParseLines(parse, init).Err? {
      ParseLinesFirstError(parse, init);
    } else {
      ParseLinesOk(parse, init);
    }
  }

  /** On success each kept command is the command its line holds, numbered from 1. */
  lemma {:induction false} ParseLinesKeepsLineCommands(parse: LineParser, lines: seq<string>)
    requires ParseLines(parse, lines).Ok?
    ensures var cmds := ParseLines(parse, lines).value;
            forall j :: 0 <= j < |cmds| ==>
              1 <= cmds[j].0 <= |lines| && parse(lines[cmds[j].0 - 1]).Parsed?
              && parse(lines[cmds[j].0 - 1]).value == Some(cmds[j].1)
    decreases |lines|
  {
    if |lines| > 0 {
      var init := lines[..|lines| - 1];
      assert forall k :: 0 <= k < |init| ==> init[k] == lines[k];
      ParseLinesKeepsLineCommands(parse, init);
    }
  }

  /** On success the commands appear in the order of their lines. */
  lemma {:induction false} ParseLinesInLineOrder(parse: LineParser, lines: seq<string>)
    requires ParseLines(parse, lines).Ok?
    ensures var cmds := ParseLines(parse, lines).value;
            (forall j :: 0 <= j < |cmds| ==> 1 <= cmds[j].0 <= |lines|)
            && forall j1, j2 :: 0 <= j1 < j2 < |cmds| ==> cmds[j1].0 < cmds[j2].0
    decreases |lines|
  {
    if |lines| > 0 {
      ParseLinesInLineOrder(parse, lines[..|lines| - 1]);
    }
  }

  /** On success no line's command is missing. */
  lemma {:induction false} ParseLinesMissesNothing(parse: LineParser, lines: seq<string>)
    requires ParseLines(parse, lines).Ok?
    ensures var cmds := ParseLines(parse, lines).value;
            forall k :: 0 <= k < |lines| && parse(lines[k]).Parsed? && parse(lines[k]).value.Some?
              ==> (k + 1, parse(lines[k]).value.value) in cmds
    decreases |lines|
  {
    if |lines| > 0 {
      var init := lines[..|lines| - 1];
      assert forall k :: 0 <= k < |init| ==> init[k] == lines[k];
      ParseLinesMissesNothing(parse, init);
    }
  }
}
