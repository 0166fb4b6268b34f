/**
 The product importer: a `;`-separated file whose first line names the
 columns. Data lines are split with a quote-toggling scanner, fields are
 trimmed, each line becomes a map from column name to field text, empty
 columns take defaults, and HTML tags are stripped from the description.

 Numeric parsing (`parseFloat` of the price, `parseInt` of the quantity) and
 the database inserts are outside the model: an imported product keeps the
 price and quantity text it would hand to those parsers.
 */
module SeedProducts {
  import opened Text

  // ---------------------------------------------------------------------------
  // Splitting a data line
  // ---------------------------------------------------------------------------

  /**
   The untrimmed fields of `s` when the scanner starts with the given quote
   state: every `"` flips the state and is dropped, a `;` outside quotes
   closes the current field, every other character is appended to it.
   */
  function RawFields(s: string, inQuotes: bool): (r: seq<string>)
    ensures |r| >= 1
  {
    if s == [] then [""]
    else if s[0] == '"' then RawFields(s[1..], !inQuotes)
    else if s[0] == ';' && !inQuotes then [""] + RawFields(s[1..], inQuotes)
    else
      var rest := RawFields(s[1..], inQuotes);
      [[s[0]] + rest[0]] + rest[1..]
  }

  /** Put `c` in front of the first field of `r`. */
  function Prepend(c: string, r: seq<string>): (r': seq<string>)
    requires |r| >= 1
    ensures |r'| == |r| && r'[0] == c + r[0] && r'[1..] == r[1..]
  {
    [c + r[0]] + r[1..]
  }

  lemma PrependEmpty(r: seq<string>)
    requires |r| >= 1
    ensures Prepend("", r) == r
  {
    assert "" + r[0] == r[0];
    assert [r[0]] + r[1..] == r;
  }

  function TrimAll(fs: seq<string>): (r: seq<string>)
    ensures |r| == |fs|
    ensures forall i :: 0 <= i < |fs| ==> r[i] == Trim(fs[i])
  {
    seq(|fs|, i requires 0 <= i < |fs| => Trim(fs[i]))
  }

  /** The fields of a data line, as the importer's scanner produces them. */
  function ParseFields(line: string): seq<string> {
    TrimAll(RawFields(line, false))
  }

  /** The character-by-character scanner of the importer. */
  method SplitLine(line: string) returns (values: seq<string>)
    ensures values == ParseFields(line)
    ensures |values| == SeparatorCount(line, false) + 1
    ensures forall i :: 0 <= i < |values| ==> '"' !in values[i] && NoEdgeSpace(values[i])
  {
    values := [];
    PrependEmpty(RawFields(line, false));
    ghost var raw: seq<string> := [];
    var current := "";
    var inQuotes := false;
    var j := 0;
    while j < |line|
      invariant 0 <= j <= |line|
      invariant values == TrimAll(raw)
      invariant RawFields(line, false) == raw + Prepend(current, RawFields(line[j..], inQuotes))
    {
      assert line[j..][0] == line[j] && line[j..][1..] == line[j + 1..];
      if line[j] == '"' {
        inQuotes := !inQuotes;
      } else if line[j] == ';' && !inQuotes {
        SeparatorStep(current, line[j..]);
        assert raw + ([current] + Prepend("", RawFields(line[j + 1..], inQuotes)))
            == (raw + [current]) + Prepend("", RawFields(line[j + 1..], inQuotes));
        TrimAllSnoc(raw, current);
        values := values + [Trim(current)];
        raw := raw + [current];
        current := "";
      } else {
        TextStep(current, line[j..], inQuotes);
        current := current + [line[j]];
      }
      j := j + 1;
    }
    assert line[j..] == [];
    assert current + "" == current;
    assert RawFields(line, false) == raw + [current];
    TrimAllSnoc(raw, current);
    values := values + [Trim(current)];
    ParsedFieldsAreClean(line);
  }

  lemma TrimAllSnoc(raw: seq<string>, f: string)
    ensures TrimAll(raw + [f]) == TrimAll(raw) + [Trim(f)]
  {
  }

  /** Parsed fields number one more than the separators, carry no quote, and are trimmed. */
  lemma ParsedFieldsAreClean(line: string)
    ensures |ParseFields(line)| == SeparatorCount(line, false) + 1
    ensures forall i :: 0 <= i < |ParseFields(line)| ==>
      '"' !in ParseFields(line)[i] && NoEdgeSpace(ParseFields(line)[i])
  {
    FieldCount(line, false);
    NoQuoteSurvives(line, false);
  }

  /** A separator outside quotes closes the current field and opens an empty one. */
  lemma SeparatorStep(cur: string, s: string)
    requires s != [] && s[0] == ';'
    ensures Prepend(cur, RawFields(s, false)) == [cur] + Prepend("", RawFields(s[1..], false))
  {
    var rest := RawFields(s[1..], false);
    assert cur + "" == cur;
    PrependEmpty(rest);
  }

  /** Any other character (not a quote, not a separator outside quotes) extends the current field. */
  lemma TextStep(cur: string, s: string, q: bool)
    requires s != [] && s[0] != '"' && !(s[0] == ';' && !q)
    ensures Prepend(cur, RawFields(s, q)) == Prepend(cur + [s[0]], RawFields(s[1..], q))
  {
    var rest := RawFields(s[1..], q);
    assert cur + ([s[0]] + rest[0]) == (cur + [s[0]]) + rest[0];
  }

  /** The number of `;` the scanner meets outside quotes. */
  function SeparatorCount(s: string, inQuotes: bool): nat {
    if s == [] then 0
    else if s[0] == '"' then SeparatorCount(s[1..], !inQuotes)
    else if s[0] == ';' && !inQuotes then 1 + SeparatorCount(s[1..], inQuotes)
    else SeparatorCount(s[1..], inQuotes)
  }

  /** A line has one more field than it has separators outside quotes. */
  lemma {:induction false} FieldCount(s: string, inQuotes: bool)
    ensures |RawFields(s, inQuotes)| == SeparatorCount(s, inQuotes) + 1
  {
    if s == [] {
    } else if s[0] == '"' {
      FieldCount(s[1..], !inQuotes);
    } else {
      FieldCount(s[1..], inQuotes);
    }
  }

  /** Quote characters only flip the scanner state: none ends up in a field. */
  lemma {:induction false} NoQuoteSurvives(s: string, inQuotes: bool)
    ensures forall i :: 0 <= i < |RawFields(s, inQuotes)| ==> '"' !in RawFields(s, inQuotes)[i]
  {
    if s == [] {
    } else if s[0] == '"' {
      NoQuoteSurvives(s[1..], !inQuotes);
    } else {
      NoQuoteSurvives(s[1..], inQuotes);
      var rest := RawFields(s[1..], inQuotes);
      var r := RawFields(s, inQuotes);
      if !(s[0] == ';' && !inQuotes) {
        assert r == [[s[0]] + rest[0]] + rest[1..];
        assert forall i :: 1 <= i < |r| ==> r[i] == rest[i];
      } else {
        assert forall i :: 1 <= i < |r| ==> r[i] == rest[i - 1];
      }
    }
  }

  /** The text the scanner keeps: everything except quotes and separators outside quotes. */
  function Kept(s: string, inQuotes: bool): string {
    if s == [] then []
    else if s[0] == '"' then Kept(s[1..], !inQuotes)
    else if s[0] == ';' && !inQuotes then Kept(s[1..], inQuotes)
    else [s[0]] + Kept(s[1..], inQuotes)
  }

  function Concat(fs: seq<string>): string {
    if fs == [] then [] else fs[0] + Concat(fs[1..])
  }

  /**
   The fields, read one after another, are exactly the kept text: in
   particular a `;` met inside quotes stays in its field as ordinary text.
   */
  lemma {:induction false} FieldsSpellKeptText(s: string, inQuotes: bool)
    ensures Concat(RawFields(s, inQuotes)) == Kept(s, inQuotes)
  {
    if s == [] {
      assert Concat([""]) == "" + Concat([]);
    } else if s[0] == '"' {
      FieldsSpellKeptText(s[1..], !inQuotes);
    } else {
      FieldsSpellKeptText(s[1..], inQuotes);
      var rest := RawFields(s[1..], inQuotes);
      if s[0] == ';' && !inQuotes {
        assert ([""] + rest)[1..] == rest;
      } else {
        var r := [[s[0]] + rest[0]] + rest[1..];
        assert r[1..] == rest[1..];
        assert Concat(rest) == rest[0] + Concat(rest[1..]);
      }
    }
  }

  lemma SeparatorThenD()
    ensures RawFields(";d", false) == ["", "d"]
  {
    PlainPrefix("d", "", false);
    assert "d" + "" == "d";
    assert ";d"[0] == ';' && ";d"[1..] == "d";
  }

  lemma QuotedField()
    ensures RawFields("\"b;c\";d", false) == ["b;c", "d"]
  {
    SeparatorThenD();
    assert "\";d"[0] == '"' && "\";d"[1..] == ";d";
    PlainPrefix("b;c", "\";d", true);
    assert "b;c" + "\";d" == "b;c\";d";
    assert "b;c" + "" == "b;c";
    assert "\"b;c\";d"[0] == '"' && "\"b;c\";d"[1..] == "b;c\";d";
  }

  /** A quoted `;` is field text: `a;"b;c";d` has the three fields `a`, `b;c`, `d`. */
  lemma QuotedSeparatorIsText()
    ensures RawFields("a;\"b;c\";d", false) == ["a", "b;c", "d"]
  {
    QuotedField();
    assert ";\"b;c\";d"[0] == ';' && ";\"b;c\";d"[1..] == "\"b;c\";d";
    PlainPrefix("a", ";\"b;c\";d", false);
    assert "a" + ";\"b;c\";d" == "a;\"b;c\";d";
    assert "a" + "" == "a";
  }

  // ---------------------------------------------------------------------------
  // Round trip with joining
  // ---------------------------------------------------------------------------

  /** A field that needs no quoting: no quote, separator or line break, no edge whitespace. */
  predicate PlainField(f: string) {
    '"' !in f && ';' !in f && '\n' !in f && NoEdgeSpace(f)
  }

  /** The fields written out with `;` between them. */
  function JoinFields(fs: seq<string>): string
    requires |fs| >= 1
  {
    if |fs| == 1 then fs[0] else fs[0] + ";" + JoinFields(fs[1..])
  }

  /** Text without quotes, and without separators unless it is quoted, just lengthens the first field. */
  lemma {:induction false} PlainPrefix(f: string, t: string, inQuotes: bool)
    requires '"' !in f && (inQuotes || ';' !in f)
    ensures RawFields(f + t, inQuotes) == Prepend(f, RawFields(t, inQuotes))
  {
    if f == [] {
      assert f + t == t;
      var r := RawFields(t, inQuotes);
      assert f + r[0] == r[0];
      assert [r[0]] + r[1..] == r;
    } else {
      assert (f + t)[0] == f[0] && (f + t)[1..] == f[1..] + t;
      assert f[0] in f;
      PlainPrefix(f[1..], t, inQuotes);
      var r := RawFields(t, inQuotes);
      assert [f[0]] + (f[1..] + r[0]) == f + r[0];
    }
  }

  lemma {:induction false} JoinThenSplitRaw(fs: seq<string>)
    requires |fs| >= 1
    requires forall i :: 0 <= i < |fs| ==> '"' !in fs[i] && ';' !in fs[i]
    ensures RawFields(JoinFields(fs), false) == fs
  {
    if |fs| == 1 {
      PlainPrefix(fs[0], "", false);
      assert fs[0] + "" == fs[0];
    } else {
      var t := JoinFields(fs[1..]);
      JoinThenSplitRaw(fs[1..]);
      assert fs[0] + ";" + t == fs[0] + (";" + t);
      PlainPrefix(fs[0], ";" + t, false);
      assert (";" + t)[0] == ';' && (";" + t)[1..] == t;
      assert RawFields(";" + t, false) == [""] + fs[1..];
      assert JoinFields(fs) == fs[0] + (";" + t);
      assert fs[0] + "" == fs[0];
      assert ([""] + fs[1..])[1..] == fs[1..];
      assert Prepend(fs[0], [""] + fs[1..]) == [fs[0]] + fs[1..] == fs;
    }
  }

  /** Plain fields joined with `;` split back into the same fields. */
  lemma JoinThenSplit(fs: seq<string>)
    requires |fs| >= 1
    requires forall i :: 0 <= i < |fs| ==> PlainField(fs[i])
    ensures ParseFields(JoinFields(fs)) == fs
  {
    JoinThenSplitRaw(fs);
  }

  // ---------------------------------------------------------------------------
  // The header line
  // ---------------------------------------------------------------------------

  /** `String.prototype.split` on one character: quotes mean nothing here. */
  function SplitOn(s: string, sep: char): (r: seq<string>)
    ensures |r| >= 1
    ensures forall i :: 0 <= i < |r| ==> sep !in r[i]
    ensures Concat(r) == Filter(s, c => c != sep)
  {
    if s == [] then [""]
    else
      var rest := SplitOn(s[1..], sep);
      if s[0] == sep then
        assert ([""] + rest)[1..] == rest;
        [""] + rest
      else
        var r := [[s[0]] + rest[0]] + rest[1..];
        assert r[1..] == rest[1..];
        assert Concat(rest) == rest[0] + Concat(rest[1..]);
        r
  }

  predicate NotQuote(c: char) {
    c != '"'
  }

  /** A header name: the piece without its quotes, trimmed. */
  function CleanName(piece: string): (name: string)
    ensures '"' !in name && NoEdgeSpace(name)
    ensures '"' !in piece && NoEdgeSpace(piece) ==> name == piece
  {
    if '"' !in piece then
      FilterAllKept(piece, NotQuote);
      Trim(Filter(piece, NotQuote))
    else Trim(Filter(piece, NotQuote))
  }

  /** The column names: split on every `;`, drop every `"`, trim. */
  function ParseHeader(line: string): (names: seq<string>)
    ensures |names| == |SplitOn(line, ';')|
    ensures forall i :: 0 <= i < |names| ==> '"' !in names[i] && ';' !in names[i] && NoEdgeSpace(names[i])
    ensures forall i :: 0 <= i < |names| ==> names[i] == CleanName(SplitOn(line, ';')[i])
  {
    var parts := SplitOn(line, ';');
    seq(|parts|, i requires 0 <= i < |parts| => CleanName(parts[i]))
  }

  /** Text without the separator just lengthens the first piece of a split. */
  lemma {:induction false} SplitOnPrefix(f: string, t: string, sep: char)
    requires sep !in f
    ensures SplitOn(f + t, sep) == Prepend(f, SplitOn(t, sep))
  {
    if f == [] {
      assert f + t == t;
      PrependEmpty(SplitOn(t, sep));
    } else {
      assert (f + t)[0] == f[0] && (f + t)[1..] == f[1..] + t;
      assert f[0] in f;
      SplitOnPrefix(f[1..], t, sep);
      ConsAppend(f, SplitOn(t, sep)[0]);
    }
  }

  /** Putting the head back in front of the tail-then-`x` gives the whole then `x`. */
  lemma ConsAppend(f: string, x: string)
    requires f != []
    ensures [f[0]] + (f[1..] + x) == f + x
  {
    assert f == [f[0]] + f[1..];
  }

  /** Names without `;` joined with `;` split back into the same names. */
  lemma {:induction false} SplitOnJoin(fs: seq<string>)
    requires |fs| >= 1
    requires forall i :: 0 <= i < |fs| ==> ';' !in fs[i]
    ensures SplitOn(JoinFields(fs), ';') == fs
  {
    if |fs| == 1 {
      SplitOnPrefix(fs[0], "", ';');
      assert fs[0] + "" == fs[0];
    } else {
      var t := JoinFields(fs[1..]);
      SplitOnJoin(fs[1..]);
      assert JoinFields(fs) == fs[0] + (";" + t);
      SplitOnPrefix(fs[0], ";" + t, ';');
      assert (";" + t)[0] == ';' && (";" + t)[1..] == t;
      assert SplitOn(";" + t, ';') == [""] + fs[1..];
      assert fs[0] + "" == fs[0];
      assert ([""] + fs[1..])[1..] == fs[1..];
      assert Prepend(fs[0], [""] + fs[1..]) == [fs[0]] + fs[1..] == fs;
    }
  }

  /** A header written from plain column names reads back as exactly those names. */
  lemma HeaderRoundTrip(names: seq<string>)
    requires |names| >= 1
    requires forall i :: 0 <= i < |names| ==> PlainField(names[i])
    ensures ParseHeader(JoinFields(names)) == names
  {
    SplitOnJoin(names);
  }

  // ---------------------------------------------------------------------------
  // From fields to a product
  // ---------------------------------------------------------------------------

  /** `values[idx] || ''` */
  function FieldAt(values: seq<string>, idx: nat): string {
    if idx < |values| then values[idx] else ""
  }

  /**
   The row object: each column name in turn is assigned the field at its
   position, so of two equal names the later one wins.
   */
  function BuildRow(header: seq<string>, values: seq<string>): (row: map<string, string>)
    ensures row.Keys == set h | h in header
  {
    if header == [] then map[]
    else BuildRow(header[..|header| - 1], values)[header[|header| - 1] := FieldAt(values, |header| - 1)]
  }

  /** `row[name]`, with an absent column reading as the empty string. */
  function Lookup(row: map<string, string>, name: string): string {
    if name in row then row[name] else ""
  }

  /** A column reads as the field at the position where its name last occurs, or `''` if absent. */
  lemma {:induction false} RowReadsLastColumn(header: seq<string>, values: seq<string>, k: nat)
    requires k < |header|
    requires forall j :: k < j < |header| ==> header[j] != header[k]
    ensures Lookup(BuildRow(header, values), header[k]) == FieldAt(values, k)
  {
    var n := |header|;
    var init := header[..n - 1];
    assert BuildRow(header, values) == BuildRow(init, values)[header[n - 1] := FieldAt(values, n - 1)];
    if k < n - 1 {
      assert header[n - 1] != header[k];
      assert init[k] == header[k];
      assert forall j :: k < j < |init| ==> init[j] == header[j];
      RowReadsLastColumn(init, values, k);
    }
  }

  lemma MissingColumnReadsEmpty(header: seq<string>, values: seq<string>, name: string)
    requires name !in header
    ensures Lookup(BuildRow(header, values), name) == ""
  {
  }

  /** A column past the end of the line reads as `''`. */
  lemma ShortLineReadsEmpty(header: seq<string>, values: seq<string>, k: nat)
    requires |values| <= k < |header|
    requires forall j :: k < j < |header| ==> header[j] != header[k]
    ensures Lookup(BuildRow(header, values), header[k]) == ""
  {
    RowReadsLastColumn(header, values, k);
  }

  /** First index of `c` in `s`. */
  function IndexOf(s: string, c: char): (k: nat)
    requires c in s
    ensures k < |s| && s[k] == c && c !in s[..k]
  {
    if s[0] == c then 0 else 1 + IndexOf(s[1..], c)
  }

  /**
   `replace(/<[^>]*>/g, '')`: at each position, a `<` with some `>` after it
   starts a tag running to the first such `>`, and the tag is removed;
   any other character is copied.
   */
  function StripTags(s: string): (r: string)
    ensures forall c :: c in r ==> c in s
    ensures NoTag(r)
    decreases |s|
  {
    if s == [] then []
    else if s[0] == '<' && '>' in s[1..] then StripTags(s[IndexOf(s[1..], '>') + 2..])
    else
      var rest := StripTags(s[1..]);
      assert s[0] == '<' ==> '>' !in rest;
      [s[0]] + rest
  }

  /** The first `>` of `t + ">" + b`, when `t` holds none, closes `t`. */
  lemma {:induction false} IndexOfFirstClose(t: string, b: string)
    requires '>' !in t
    ensures IndexOf(t + ">" + b, '>') == |t|
  {
    if t != [] {
      assert (t + ">" + b)[1..] == t[1..] + ">" + b;
      IndexOfFirstClose(t[1..], b);
    }
  }

  /** A tag at the front is dropped whole. */
  lemma StripTagsDropsTag(t: string, b: string)
    requires '>' !in t
    ensures StripTags("<" + t + ">" + b) == StripTags(b)
  {
    var s := "<" + t + ">" + b;
    assert s == "<" + (t + ">" + b);
    assert s[1..] == t + ">" + b;
    IndexOfFirstClose(t, b);
    assert s[|t| + 2..] == b;
  }

  /**
   Text outside tags survives: text with no `<`, then a tag, then the rest,
   strips to that text followed by the stripped rest.
   */
  lemma {:induction false} StripTagsKeepsText(a: string, t: string, b: string)
    requires '<' !in a && '>' !in t
    ensures StripTags(a + "<" + t + ">" + b) == a + StripTags(b)
    decreases |a|
  {
    if a == [] {
      assert a + "<" + t + ">" + b == "<" + t + ">" + b;
      StripTagsDropsTag(t, b);
    } else {
      StripTagsKeepsText(a[1..], t, b);
      StripTagsCopies(a, a[1..] + "<" + t + ">" + b, a + "<" + t + ">" + b);
      assert a == [a[0]] + a[1..];
    }
  }

  /** A first character other than `<` is copied. */
  lemma StripTagsCopies(a: string, rest: string, s: string)
    requires a != [] && a[0] != '<' && s == [a[0]] + rest
    ensures StripTags(s) == [a[0]] + StripTags(rest)
  {
    assert s[0] == a[0] && s[1..] == rest;
  }

  /** `"a<b>c".replace(/<[^>]*>/g, '')` is `"ac"`. */
  lemma StripTagsExample()
    ensures StripTags("a<b>c") == "ac"
  {
    StripTagsFixesTagFree("c");
    StripTagsKeepsText("a", "b", "c");
    assert "a" + "<" + "b" + ">" + "c" == "a<b>c";
  }

  /** No `<` is followed, anywhere later, by a `>`. */
  predicate NoTag(s: string) {
    forall i, j :: 0 <= i < j < |s| && s[i] == '<' ==> s[j] != '>'
  }

  lemma {:induction false} StripTagsFixesTagFree(s: string)
    requires NoTag(s)
    ensures StripTags(s) == s
  {
    if s != [] {
      assert s[0] == '<' ==> '>' !in s[1..];
      assert NoTag(s[1..]);
      StripTagsFixesTagFree(s[1..]);
    }
  }

  lemma TrimKeepsNoTag(s: string)
    requires NoTag(s)
    ensures NoTag(Trim(s))
  {
    TrimStartKeepsNoTag(s);
    TrimEndKeepsNoTag(TrimStart(s));
  }

  lemma {:induction false} TrimStartKeepsNoTag(s: string)
    requires NoTag(s)
    ensures NoTag(TrimStart(s))
    decreases |s|
  {
    if s != [] && IsSpace(s[0]) {
      NoTagTail(s);
      TrimStartKeepsNoTag(s[1..]);
    }
  }

  lemma {:induction false} TrimEndKeepsNoTag(s: string)
    requires NoTag(s)
    ensures NoTag(TrimEnd(s))
    decreases |s|
  {
    if s != [] && IsSpace(s[|s| - 1]) {
      NoTagInit(s);
      TrimEndKeepsNoTag(s[..|s| - 1]);
    }
  }

  /** Dropping the first character keeps text tag-free. */
  lemma NoTagTail(s: string)
    requires NoTag(s) && s != []
    ensures NoTag(s[1..])
  {
    var t := s[1..];
    forall i, j | 0 <= i < j < |t| && t[i] == '<' ensures t[j] != '>' {
      assert t[i] == s[i + 1] && t[j] == s[j + 1];
    }
  }

  /** Dropping the last character keeps text tag-free. */
  lemma NoTagInit(s: string)
    requires NoTag(s) && s != []
    ensures NoTag(s[..|s| - 1])
  {
    var t := s[..|s| - 1];
    forall i, j | 0 <= i < j < |t| && t[i] == '<' ensures t[j] != '>' {
      assert t[i] == s[i] && t[j] == s[j];
    }
  }

  /** Stripping twice is stripping once. */
  lemma StripTagsIdempotent(s: string)
    ensures StripTags(StripTags(s)) == StripTags(s)
  {
    StripTagsFixesTagFree(StripTags(s));
  }

  /** The description with its tags removed, then trimmed. */
  function CleanDescription(raw: string): (d: string)
    ensures NoTag(d) && NoEdgeSpace(d)
    ensures NoTag(raw) && NoEdgeSpace(raw) ==> d == raw
  {
    var stripped := StripTags(raw);
    TrimKeepsNoTag(stripped);
    if NoTag(raw) then StripTagsFixesTagFree(raw); Trim(stripped) else Trim(stripped)
  }

  /** A tagged description keeps its text: the tag goes, the text around it is trimmed. */
  lemma CleanDescriptionKeepsText(a: string, t: string, b: string)
    requires '<' !in a && '>' !in t
    ensures CleanDescription(a + "<" + t + ">" + b) == Trim(a + StripTags(b))
  {
    StripTagsKeepsText(a, t, b);
  }

  /** A product as the importer hands it to the database. */
  datatype ImportedProduct = ImportedProduct(
    sku: string,
    category: string,
    title: string,
    description: string,
    fullText: string,
    imageUrl: string,
    priceText: string,     // the text given to parseFloat, then scaled to kopecks
    quantityText: string,  // the text given to parseInt
    unit: string)

  const DefaultCategory: string := "Другое"
  const DefaultTitle: string := "Без названия"

  /** `v` is the column `name` of `row` when that is non-empty, and `fallback` otherwise. */
  predicate ColumnOr(row: map<string, string>, name: string, fallback: string, v: string) {
    && (Lookup(row, name) != "" ==> v == Lookup(row, name))
    && (Lookup(row, name) == "" ==> v == fallback)
  }

  /** `row[name] || fallback` */
  function Column(row: map<string, string>, name: string, fallback: string): (r: string)
    ensures ColumnOr(row, name, fallback, r)
  {
    if Lookup(row, name) != "" then Lookup(row, name) else fallback
  }

  /**
   How an imported product relates to its row: SKU, category, title, unit,
   price and quantity are the column or its default, text and photo are the
   column as it is, and the description is the cleaned column.
   */
  predicate ImportedFrom(row: map<string, string>, i: nat, p: ImportedProduct) {
    && ColumnOr(row, "SKU", "SKU-" + NatToString(i), p.sku)
    && ColumnOr(row, "Category", DefaultCategory, p.category)
    && ColumnOr(row, "Title", DefaultTitle, p.title)
    && ColumnOr(row, "Unit", "KGM", p.unit)
    && ColumnOr(row, "Price", "0", p.priceText)
    && ColumnOr(row, "Quantity", "0", p.quantityText)
    && p.fullText == Lookup(row, "Text") && p.imageUrl == Lookup(row, "Photo")
    && p.description == CleanDescription(Lookup(row, "Description"))
  }

  /**
   The product for the row object of the data line at index `i` of the file:
   each column, or its fallback when it is empty or missing.
   */
  function RowToProduct(row: map<string, string>, i: nat): (p: ImportedProduct)
    ensures ImportedFrom(row, i, p)
  {
    ImportedProduct(
      Column(row, "SKU", "SKU-" + NatToString(i)),
      Column(row, "Category", DefaultCategory),
      Column(row, "Title", DefaultTitle),
      CleanDescription(Lookup(row, "Description")),
      Lookup(row, "Text"),
      Lookup(row, "Photo"),
      Column(row, "Price", "0"),
      Column(row, "Quantity", "0"),
      Column(row, "Unit", "KGM"))
  }

  /** Whatever the row holds, an imported product has a SKU, a category, a title and a unit. */
  lemma KeyColumnsNeverEmpty(row: map<string, string>, i: nat)
    ensures RowToProduct(row, i).sku != ""
    ensures RowToProduct(row, i).category != ""
    ensures RowToProduct(row, i).title != ""
    ensures RowToProduct(row, i).unit != ""
  {
    NonEmptyFallback(row, "SKU", "SKU-" + NatToString(i));
    NonEmptyFallback(row, "Category", DefaultCategory);
    NonEmptyFallback(row, "Title", DefaultTitle);
    NonEmptyFallback(row, "Unit", "KGM");
  }

  lemma NonEmptyFallback(row: map<string, string>, name: string, fallback: string)
    requires fallback != ""
    ensures Column(row, name, fallback) != ""
  {
  }

  /** Missing category, title, unit, price and quantity columns fall back to their defaults. */
  lemma EmptyColumnsTakeDefaults(header: seq<string>, values: seq<string>, i: nat)
    requires "Category" !in header && "Title" !in header && "Unit" !in header
    requires "Price" !in header && "Quantity" !in header
    ensures var p := RowToProduct(BuildRow(header, values), i);
      && p.category == "Другое" && p.title == "Без названия" && p.unit == "KGM"
      && p.priceText == "0" && p.quantityText == "0"
  {
    MissingColumnReadsEmpty(header, values, "Category");
    MissingColumnReadsEmpty(header, values, "Title");
    MissingColumnReadsEmpty(header, values, "Unit");
    MissingColumnReadsEmpty(header, values, "Price");
    MissingColumnReadsEmpty(header, values, "Quantity");
  }

  // ---------------------------------------------------------------------------
  // The whole file
  // ---------------------------------------------------------------------------

  /** Data lines that are not blank once trimmed. */
  function NonBlankCount(lines: seq<string>): nat {
    if lines == [] then 0 else (if Trim(lines[0]) == "" then 0 else 1) + NonBlankCount(lines[1..])
  }

  /** What one data line at index `i` of the file yields: nothing or one product. */
  function LineProducts(header: seq<string>, line: string, i: nat): seq<ImportedProduct> {
    var t := Trim(line);
    if t == "" then [] else [RowToProduct(BuildRow(header, ParseFields(t)), i)]
  }

  /** One data line's products as a function of the line and its index in the file. */
  function LineFn(header: seq<string>): (string, nat) -> seq<ImportedProduct> {
    (line: string, k: nat) => LineProducts(header, line, k)
  }

  /** What `f` yields for each line, concatenated, the first line having index `i`. */
  function ConcatLines(f: (string, nat) -> seq<ImportedProduct>, lines: seq<string>, i: nat): seq<ImportedProduct> {
    if lines == [] then [] else f(lines[0], i) + ConcatLines(f, lines[1..], i + 1)
  }

  lemma {:induction false} ConcatLinesAppend(f: (string, nat) -> seq<ImportedProduct>, a: seq<string>, b: seq<string>, i: nat)
    ensures ConcatLines(f, a + b, i) == ConcatLines(f, a, i) + ConcatLines(f, b, i + |a|)
    decreases |a|
  {
    if a == [] {
      assert a + b == b;
    } else {
      assert (a + b)[0] == a[0];
      assert (a + b)[1..] == a[1..] + b;
      ConcatLinesAppend(f, a[1..], b, i + 1);
    }
  }

  lemma {:induction false} LineCount(header: seq<string>, lines: seq<string>, i: nat)
    ensures |ConcatLines(LineFn(header), lines, i)| == NonBlankCount(lines)
    decreases |lines|
  {
    if lines != [] {
      LineCount(header, lines[1..], i + 1);
    }
  }

  /**
   The products of the data lines, the first of which has index `i` in the
   file: each line in turn yields what `LineProducts` gives for it.
   */
  function ParseRows(header: seq<string>, lines: seq<string>, i: nat): (ps: seq<ImportedProduct>)
    ensures |ps| == NonBlankCount(lines)
  {
    LineCount(header, lines, i);
    ConcatLines(LineFn(header), lines, i)
  }

  /**
   A data line on its own: nothing when it is blank once trimmed, and
   otherwise exactly the product of its trimmed fields, carrying the line's
   index in the file.
   */
  lemma ParseRowsSingle(header: seq<string>, line: string, i: nat)
    ensures Trim(line) == "" ==> ParseRows(header, [line], i) == []
    ensures Trim(line) != "" ==>
      ParseRows(header, [line], i) == [RowToProduct(BuildRow(header, ParseFields(Trim(line))), i)]
  {
    var f := LineFn(header);
    assert [line][0] == line && [line][1..] == [];
    assert ConcatLines(f, [line], i) == f(line, i) + ConcatLines(f, [], i + 1);
    assert f(line, i) == LineProducts(header, line, i);
    assert ParseRows(header, [line], i) == LineProducts(header, line, i);
  }

  /**
   The data lines are parsed one after another: the products of `a + b` are
   those of `a` followed by those of `b`, whose index in the file starts
   |a| lines later, blank lines included.
   */
  lemma ParseRowsAppend(header: seq<string>, a: seq<string>, b: seq<string>, i: nat)
    ensures ParseRows(header, a + b, i) == ParseRows(header, a, i) + ParseRows(header, b, i + |a|)
  {
    ConcatLinesAppend(LineFn(header), a, b, i);
  }

  /** The file's products: one per non-blank line after the header line. */
  function ParseCsv(content: string): (ps: seq<ImportedProduct>)
    ensures |ps| == NonBlankCount(SplitOn(content, '\n')[1..])
  {
    var lines := SplitOn(content, '\n');
    ParseRows(ParseHeader(lines[0]), lines[1..], 1)
  }

  /** A file whose data lines are all blank imports nothing. */
  lemma BlankLinesImportNothing(content: string)
    requires forall k :: 1 <= k < |SplitOn(content, '\n')| ==> Trim(SplitOn(content, '\n')[k]) == ""
    ensures ParseCsv(content) == []
  {
    var lines := SplitOn(content, '\n')[1..];
    AllBlankCountsZero(lines);
  }

  lemma {:induction false} AllBlankCountsZero(lines: seq<string>)
    requires forall k :: 0 <= k < |lines| ==> Trim(lines[k]) == ""
    ensures NonBlankCount(lines) == 0
  {
    if lines != [] {
      AllBlankCountsZero(lines[1..]);
    }
  }
}
