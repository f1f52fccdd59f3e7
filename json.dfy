/** The part of `JSON.stringify` / `JSON.parse` that the session store uses.
    A stored record is `null` or an object whose fields, in a fixed order,
    each hold a string or nothing. The encoding here is an abstraction of the
    JSON text (each field is `~` when absent, or a quoted string with `"` and
    `\` escaped by a backslash), chosen so that what is proved about reading a
    record back matches what `JSON.parse(JSON.stringify(v))` does for these
    records: the same record comes back, and text that is not a record fails. */
module Json {
  import opened Wrappers

  datatype Doc = NullDoc | ObjectDoc(cells: seq<Option<string>>)

  /** The field at `i`, or nothing when the record is shorter (`obj.missing`). */
  function CellAt(cells: seq<Option<string>>, i: nat): Option<string> {
    if i < |cells| then cells[i] else None
  }

  function Escape(s: string): string
    decreases |s|
  {
    if s == [] then []
    else (if s[0] == '"' || s[0] == '\\' then ['\\', s[0]] else [s[0]]) + Escape(s[1..])
  }

  function EncodeCell(c: Option<string>): string {
    match c
    case None => "~"
    case Some(s) => "\"" + Escape(s) + "\""
  }

  function EncodeCells(cells: seq<Option<string>>): string
    decreases |cells|
  {
    if cells == [] then "" else EncodeCell(cells[0]) + EncodeCells(cells[1..])
  }

  /** `JSON.stringify`. */
  function Serialize(d: Doc): (r: string)
    ensures r != ""
    ensures d.ObjectDoc? ==> r[0] == '{'
  {
    match d
    case NullDoc => "null"
    case ObjectDoc(cells) => "{" + EncodeCells(cells) + "}"
  }

  /** Reads a quoted string after its opening quote: the unescaped text and
      what follows the closing quote, or nothing when the quote never closes. */
  function ParseQuoted(s: string): (r: Option<(string, string)>)
    ensures r.Some? ==> |r.value.1| < |s|
    decreases |s|
  {
    if s == [] then None
    else if s[0] == '"' then Some(([], s[1..]))
    else if s[0] == '\\' then
      if |s| < 2 then None
      else
        match ParseQuoted(s[2..])
        case None => None
        case Some((t, rest)) => Some(([s[1]] + t, rest))
    else
      match ParseQuoted(s[1..])
      case None => None
      case Some((t, rest)) => Some(([s[0]] + t, rest))
  }

  /** Reads fields up to the closing brace of a record. */
  function ParseCells(s: string): (r: Option<(seq<Option<string>>, string)>)
    decreases |s|
  {
    if s == [] then None
    else if s[0] == '}' then Some(([], s[1..]))
    else if s[0] == '~' then
      match ParseCells(s[1..])
      case None => None
      case Some((cs, rest)) => Some(([None] + cs, rest))
    else if s[0] == '"' then
      match ParseQuoted(s[1..])
      case None => None
      case Some((t, after)) =>
        match ParseCells(after)
        case None => None
        case Some((cs, rest)) => Some(([Some(t)] + cs, rest))
    else None
  }

  /** `JSON.parse`: nothing stands for the exception it throws on text that
      is not a record. */
  function Parse(s: string): Option<Doc> {
    if s == "null" then Some(NullDoc)
    else if s != [] && s[0] == '{' then
      match ParseCells(s[1..])
      case Some((cells, rest)) => if rest == [] then Some(ObjectDoc(cells)) else None
      case None => None
    else None
  }

  lemma {:induction false} ParseQuotedEscape(x: string, rest: string)
    ensures ParseQuoted(Escape(x) + "\"" + rest) == Some((x, rest))
    decreases |x|
  {
    if x == [] {
      assert Escape(x) + "\"" + rest == "\"" + rest;
    } else {
      var head := if x[0] == '"' || x[0] == '\\' then ['\\', x[0]] else [x[0]];
      var u := Escape(x[1..]) + "\"" + rest;
      ParseQuotedEscape(x[1..], rest);
      assert Escape(x) == head + Escape(x[1..]);
      Regroup(head, Escape(x[1..]), "\"", rest);
      if x[0] == '"' || x[0] == '\\' {
        QuotedEscapedStep(x[0], u);
      } else {
        QuotedPlainStep(x[0], u);
      }
      assert [x[0]] + x[1..] == x;
    }
  }

  lemma Regroup(a: string, b: string, c: string, d: string)
    ensures a + b + c + d == a + (b + c + d)
  {
  }

  /** An escaped character is read as itself. */
  lemma QuotedEscapedStep(c: char, u: string)
    ensures ParseQuoted(['\\', c] + u) ==
      match ParseQuoted(u)
      case None => None
      case Some((t, r)) => Some(([c] + t, r))
  {
    assert (['\\', c] + u)[2..] == u;
  }

  /** A character that needs no escape is read as itself. */
  lemma QuotedPlainStep(c: char, u: string)
    requires c != '"' && c != '\\'
    ensures ParseQuoted([c] + u) ==
      match ParseQuoted(u)
      case None => None
      case Some((t, r)) => Some(([c] + t, r))
  {
    assert ([c] + u)[1..] == u;
  }

  /** Reading an absent field and then the rest of a record. */
  lemma ParseCellsAbsent(tail: string)
    ensures ParseCells("~" + tail) ==
      match ParseCells(tail)
      case None => None
      case Some((cs, rest)) => Some(([None] + cs, rest))
  {
    assert ("~" + tail)[1..] == tail;
  }

  /** Reading a present field and then the rest of a record. */
  lemma ParseCellsPresent(x: string, tail: string)
    ensures ParseCells("\"" + Escape(x) + "\"" + tail) ==
      match ParseCells(tail)
      case None => None
      case Some((cs, rest)) => Some(([Some(x)] + cs, rest))
  {
    var s := "\"" + Escape(x) + "\"" + tail;
    assert s[1..] == Escape(x) + "\"" + tail;
    ParseQuotedEscape(x, tail);
  }

  lemma {:induction false} ParseCellsEncoded(cells: seq<Option<string>>, rest: string)
    ensures ParseCells(EncodeCells(cells) + "}" + rest) == Some((cells, rest))
    decreases |cells|
  {
    if cells == [] {
      assert EncodeCells(cells) + "}" + rest == "}" + rest;
    } else {
      ParseCellsEncoded(cells[1..], rest);
      var tail := EncodeCells(cells[1..]) + "}" + rest;
      Regroup(EncodeCell(cells[0]), EncodeCells(cells[1..]), "}", rest);
      assert cells == [cells[0]] + cells[1..];
      match cells[0]
      case None =>
        ParseCellsAbsent(tail);
      case Some(x) =>
        ParseCellsPresent(x, tail);
    }
  }

  /** Reading back a stored record gives the same record. */
  lemma ParseSerialize(d: Doc)
    ensures Parse(Serialize(d)) == Some(d)
  {
    match d
    case NullDoc =>
    case ObjectDoc(cells) =>
      var s := Serialize(d);
      ParseCellsEncoded(cells, "");
      assert s[1..] == EncodeCells(cells) + "}" + "";
  }

  /** Text that is not a record makes `JSON.parse` throw. */
  lemma ParseRejects()
    ensures Parse("undefined") == None
    ensures Parse("{") == None
  {
  }
}
