// The CSV writer of the chat-leads and chat-analysis tasks (`writeCsv`):
// a field is wrapped in double quotes, with inner quotes doubled, exactly
// when it contains a comma, a double quote or a newline.
module Csv {
  import opened Wrappers
  import opened Text

  predicate NeedsQuoting(s: string)
  {
    ',' in s || '"' in s || '\n' in s
  }

  /** `String(v ?? '')`: a missing value becomes the empty field. */
  function FieldText(v: Option<string>): string
  {
    v.GetOr("")
  }

  function Escape(s: string): (r: string)
    ensures NeedsQuoting(s) ==> |r| >= 2 && r[0] == '"' && r[|r| - 1] == '"'
    ensures !NeedsQuoting(s) ==> r == s
  {
    if NeedsQuoting(s) then "\"" + ReplaceChar(s, '"', "\"\"") + "\"" else s
  }

  /** A reader's view of one field: strip the surrounding quotes and undouble
   *  the inner ones; an unquoted field is taken as it is. */
  function Unescape(f: string): string
  {
    if |f| >= 2 && f[0] == '"' && f[|f| - 1] == '"' then Undouble(f[1..|f| - 1]) else f
  }

  function Undouble(s: string): string
    decreases |s|
  {
    if s == [] then ""
    else if |s| >= 2 && s[0] == '"' && s[1] == '"' then "\"" + Undouble(s[2..])
    else [s[0]] + Undouble(s[1..])
  }

  lemma {:induction false} UndoubleReplace(s: string)
    ensures Undouble(ReplaceChar(s, '"', "\"\"")) == s
    decreases |s|
  {
    if s != [] {
      var rest := ReplaceChar(s[1..], '"', "\"\"");
      UndoubleReplace(s[1..]);
      if s[0] == '"' {
        assert ReplaceChar(s, '"', "\"\"") == "\"\"" + rest;
        assert ("\"\"" + rest)[2..] == rest;
      } else {
        assert ReplaceChar(s, '"', "\"\"") == [s[0]] + rest;
        assert ([s[0]] + rest)[1..] == rest;
      }
    }
  }

  /** Escaping loses nothing: the reader gets the original text back. */
  lemma EscapeRoundTrip(s: string)
    ensures Unescape(Escape(s)) == s
  {
    if NeedsQuoting(s) {
      var inner := ReplaceChar(s, '"', "\"\"");
      var e := "\"" + inner + "\"";
      assert e[1..|e| - 1] == inner;
      UndoubleReplace(s);
    }
  }

  /** A field is altered exactly when it has to be quoted. */
  lemma EscapeChangesIffQuoted(s: string)
    ensures Escape(s) != s <==> NeedsQuoting(s)
  {
    if NeedsQuoting(s) {
      if Escape(s) == s {
        assert |s| >= 2 && s[0] == '"';
        assert '"' in s;
        assert |ReplaceChar(s, '"', "\"\"")| > |s| by {
          ReplaceGrows(s);
        }
      }
    }
  }

  lemma {:induction false} ReplaceGrows(s: string)
    requires '"' in s
    ensures |ReplaceChar(s, '"', "\"\"")| > |s|
    decreases |s|
  {
    ReplaceKeepsLength(s[1..]);
    if s[0] != '"' {
      ReplaceGrows(s[1..]);
    }
  }

  lemma {:induction false} ReplaceKeepsLength(s: string)
    ensures |ReplaceChar(s, '"', "\"\"")| >= |s|
    decreases |s|
  {
    if s != [] {
      ReplaceKeepsLength(s[1..]);
    }
  }

  /** One CSV line: the escaped fields joined by commas. */
  function Line(fields: seq<string>): string
  {
    Join(seq(|fields|, i requires 0 <= i < |fields| => Escape(fields[i])), ",")
  }

  /** `lines.join('\n')` of the header line and one line per row. */
  function Document(headers: seq<string>, rows: seq<seq<string>>): string
  {
    Join([Line(headers)] + seq(|rows|, i requires 0 <= i < |rows| => Line(rows[i])), "\n")
  }

  /** Fields that need no quoting come back from splitting the line on commas. */
  lemma PlainLineSplits(fields: seq<string>)
    requires |fields| >= 1
    requires forall i :: 0 <= i < |fields| ==> !NeedsQuoting(fields[i])
    ensures Split(Line(fields), ',') == fields
  {
    var escaped := seq(|fields|, i requires 0 <= i < |fields| => Escape(fields[i]));
    assert escaped == fields;
    SplitJoin(fields, ',');
  }

  /** Every escaped field is free of bare newlines outside its quotes: a line
   *  of an unquoted document holds no newline at all. */
  lemma PlainDocumentLines(headers: seq<string>, rows: seq<seq<string>>)
    requires |headers| >= 1 && forall i :: 0 <= i < |headers| ==> !NeedsQuoting(headers[i])
    requires forall r, i :: 0 <= r < |rows| && 0 <= i < |rows[r]| ==> !NeedsQuoting(rows[r][i])
    ensures |Split(Document(headers, rows), '\n')| == |rows| + 1
  {
    var lines := [Line(headers)] + seq(|rows|, i requires 0 <= i < |rows| => Line(rows[i]));
    forall k | 0 <= k < |lines| ensures '\n' !in lines[k] {
      var fs := if k == 0 then headers else rows[k - 1];
      assert lines[k] == Line(fs);
      JoinAvoids(seq(|fs|, i requires 0 <= i < |fs| => Escape(fs[i])), ",", '\n');
    }
    SplitJoin(lines, '\n');
  }
}
