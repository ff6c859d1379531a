/**
 * The Y-Bus line list as text: records separated by '\n', fields separated
 * by ',', in the order from, to, R, X, B. `String.prototype.split` with a
 * one-character separator is modelled exactly; JavaScript's `Number(...)`
 * text-to-double conversion is a parameter, with None standing for NaN.
 */
module LineData {
  import opened Wrappers

  /**
   * `s.split(sep)`: the pieces of s between occurrences of sep. There is
   * always at least one piece; the empty string splits into one empty piece.
   */
  function Split(s: string, sep: char): (parts: seq<string>)
    ensures |parts| >= 1
    decreases |s|
  {
    if s == [] then [[]]
    else
      var rest := Split(s[1..], sep);
      if s[0] == sep then [[]] + rest else [[s[0]] + rest[0]] + rest[1..]
  }

  /** The pieces joined back together with sep between consecutive ones. */
  function Join(parts: seq<string>, sep: char): string
    requires |parts| >= 1
    decreases |parts|
  {
    if |parts| == 1 then parts[0] else parts[0] + [sep] + Join(parts[1..], sep)
  }

  /** Number of occurrences of c in s. */
  function Occurrences(s: string, c: char): nat
  {
    if s == [] then 0 else (if s[0] == c then 1 else 0) + Occurrences(s[1..], c)
  }

  /** Joining the pieces gives back the text that was split. */
  lemma {:induction false} JoinSplit(s: string, sep: char)
    ensures Join(Split(s, sep), sep) == s
    decreases |s|
  {
    if s != [] {
      JoinSplit(s[1..], sep);
      var rest := Split(s[1..], sep);
      if s[0] == sep {
        assert Split(s, sep)[1..] == rest;
      } else if |rest| == 1 {
        assert Join(Split(s, sep), sep) == [s[0]] + rest[0];
      } else {
        assert Split(s, sep)[1..] == rest[1..];
        assert Join(rest, sep) == rest[0] + [sep] + Join(rest[1..], sep);
      }
    }
  }

  /** No piece contains the separator, and there is one piece more than there are separators. */
  lemma {:induction false} SplitPieces(s: string, sep: char)
    ensures forall k | 0 <= k < |Split(s, sep)| :: sep !in Split(s, sep)[k]
    ensures |Split(s, sep)| == Occurrences(s, sep) + 1
    decreases |s|
  {
    if s != [] {
      SplitPieces(s[1..], sep);
      var rest := Split(s[1..], sep);
      var parts := Split(s, sep);
      if s[0] != sep {
        assert parts[0] == [s[0]] + rest[0];
        forall k | 1 <= k < |parts| ensures sep !in parts[k] {
          assert parts[k] == rest[k];
        }
      } else {
        forall k | 1 <= k < |parts| ensures sep !in parts[k] {
          assert parts[k] == rest[k - 1];
        }
      }
    }
  }

  /** Splitting text joined from separator-free pieces gives the pieces back. */
  lemma {:induction false} SplitJoin(parts: seq<string>, sep: char)
    requires |parts| >= 1
    requires forall k | 0 <= k < |parts| :: sep !in parts[k]
    ensures Split(Join(parts, sep), sep) == parts
    decreases |parts|, |parts[0]|
  {
    if parts[0] == [] {
      if |parts| > 1 {
        SplitJoin(parts[1..], sep);
        assert Join(parts, sep) == [sep] + Join(parts[1..], sep);
        assert Join(parts, sep)[1..] == Join(parts[1..], sep);
        assert parts == [[]] + parts[1..];
      }
    } else {
      var c := parts[0][0];
      assert c in parts[0];
      var shorter := [parts[0][1..]] + parts[1..];
      forall k | 0 <= k < |shorter| ensures sep !in shorter[k] {
        if k == 0 {
          assert forall x | x in parts[0][1..] :: x in parts[0];
        } else {
          assert shorter[k] == parts[k];
        }
      }
      SplitJoin(shorter, sep);
      JoinCons(parts, sep);
      assert Join(parts, sep) == [c] + Join(shorter, sep);
      assert parts[0] == [c] + parts[0][1..];
      assert parts == [[c] + shorter[0]] + shorter[1..];
    }
  }

  /** Join peels off the first character of a non-empty first piece. */
  lemma JoinCons(parts: seq<string>, sep: char)
    requires |parts| >= 1 && parts[0] != []
    ensures Join(parts, sep) == [parts[0][0]] + Join([parts[0][1..]] + parts[1..], sep)
  {
    var shorter := [parts[0][1..]] + parts[1..];
    assert shorter[1..] == parts[1..];
    assert parts[0] == [parts[0][0]] + parts[0][1..];
  }

  /**
   * A text line after `line.split(',').map(Number)` and the destructuring
   * `{ from: from - 1, to: to - 1, r, x, b }`. A field that is missing
   * (undefined) or not a number is None; None - 1 stays None, as NaN does.
   */
  datatype Row = Row(from: Option<real>, to: Option<real>, r: Option<real>, x: Option<real>, b: Option<real>)

  /** The k-th field converted by `number`, or None when the line has fewer fields. */
  function Field(fields: seq<string>, k: nat, number: string -> Option<real>): Option<real>
  {
    if k < |fields| then number(fields[k]) else None
  }

  /** Shift a 1-based bus number to a 0-based index. */
  function ToZeroBased(v: Option<real>): Option<real>
  {
    match v
    case None => None
    case Some(n) => Some(n - 1.0)
  }

  function ParseRow(line: string, number: string -> Option<real>): Row
  {
    var fields := Split(line, ',');
    Row(ToZeroBased(Field(fields, 0, number)), ToZeroBased(Field(fields, 1, number)),
        Field(fields, 2, number), Field(fields, 3, number), Field(fields, 4, number))
  }

  /** `lineData.split('\n').map(...)`: one row per text line, blank lines included. */
  function ParseLineData(lineData: string, number: string -> Option<real>): (rows: seq<Row>)
    ensures |rows| == |Split(lineData, '\n')| == Occurrences(lineData, '\n') + 1
    ensures forall k | 0 <= k < |rows| :: rows[k] == ParseRow(Split(lineData, '\n')[k], number)
  {
    SplitPieces(lineData, '\n');
    var lines := Split(lineData, '\n');
    seq(|lines|, k requires 0 <= k < |lines| => ParseRow(lines[k], number))
  }

  /**
   * The rows are parsed from newline-free lines that, joined back with
   * newlines, give the whole text: there is one row more than there are
   * newlines, and none is lost, merged or split.
   */
  lemma RowsOfLines(lineData: string, number: string -> Option<real>)
    ensures var rows := ParseLineData(lineData, number);
            var lines := Split(lineData, '\n');
            |rows| == |lines| == Occurrences(lineData, '\n') + 1 &&
            Join(lines, '\n') == lineData &&
            forall k | 0 <= k < |rows| :: '\n' !in lines[k] && rows[k] == ParseRow(lines[k], number)
  {
    SplitPieces(lineData, '\n');
    JoinSplit(lineData, '\n');
  }

  /**
   * A line of five or more comma-free fields parses field by field, in the
   * order from, to, R, X, B, with the bus numbers shifted down by one; any
   * further fields are ignored.
   */
  lemma ParseFiveFields(f: string, t: string, r: string, x: string, b: string, extra: seq<string>,
                        number: string -> Option<real>)
    requires forall k | 0 <= k < |[f, t, r, x, b] + extra| :: ',' !in ([f, t, r, x, b] + extra)[k]
    ensures ParseRow(Join([f, t, r, x, b] + extra, ','), number)
            == Row(ToZeroBased(number(f)), ToZeroBased(number(t)), number(r), number(x), number(b))
  {
    SplitJoin([f, t, r, x, b] + extra, ',');
  }

  /** A line with fewer than five fields leaves each missing field None (NaN in the source). */
  lemma MissingFields(line: string, number: string -> Option<real>)
    requires Occurrences(line, ',') < 4
    ensures ParseRow(line, number).b == None
    ensures Occurrences(line, ',') < 3 ==> ParseRow(line, number).x == None
    ensures Occurrences(line, ',') < 2 ==> ParseRow(line, number).r == None
    ensures Occurrences(line, ',') < 1 ==> ParseRow(line, number).to == None
  {
    SplitPieces(line, ',');
  }

  /** A blank line, such as the one after a trailing newline, reads as bus 0 - 1 with no `to` bus. */
  lemma BlankLine(number: string -> Option<real>)
    requires number("") == Some(0.0)
    ensures ParseRow("", number).from == Some(-1.0)
    ensures ParseRow("", number).to == None
  {
  }

  /** Text ending in a newline has a blank last line. */
  lemma TrailingNewline(lineData: string)
    ensures Split(lineData + "\n", '\n')[|Split(lineData + "\n", '\n')| - 1] == ""
  {
    JoinSplit(lineData, '\n');
    SplitPieces(lineData, '\n');
    var parts := Split(lineData, '\n');
    JoinAppendEmpty(parts, '\n');
    SplitJoin(parts + [""], '\n');
  }

  lemma {:induction false} JoinAppendEmpty(parts: seq<string>, sep: char)
    requires |parts| >= 1
    ensures Join(parts + [""], sep) == Join(parts, sep) + [sep]
    decreases |parts|
  {
    if |parts| > 1 {
      JoinAppendEmpty(parts[1..], sep);
      assert (parts + [""])[1..] == parts[1..] + [""];
    }
  }
}
