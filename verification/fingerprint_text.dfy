/** The text a content fingerprint digests: one record after another, each a tag
    and its fields between NULs and closed by a newline. Fields may hold
    newlines themselves, and still no two lists of records share a text. */
module FingerprintText {

  const NUL: char := '\0'
  const NEWLINE: char := '\n'

  datatype Tag = Asset | Header | Element | Preserved | Picture

  datatype Record = Record(tag: Tag, fields: seq<string>)

  function TagText(tag: Tag): string {
    match tag
    case Asset => "asset"
    case Header => "header"
    case Element => "element"
    case Preserved => "preserved"
    case Picture => "picture"
  }

  /** How many fields a record of this tag is written with. */
  function Arity(tag: Tag): nat {
    match tag
    case Asset => 2
    case Header => 2
    case Element => 3
    case Preserved => 4
    case Picture => 3
  }

  ghost predicate Whole(record: Record) {
    |record.fields| == Arity(record.tag) && forall f | f in record.fields :: NUL !in f
  }

  /** A NUL before each field. */
  function FieldsText(fields: seq<string>): string {
    if fields == [] then "" else [NUL] + fields[0] + FieldsText(fields[1..])
  }

  function RecordText(record: Record): string {
    TagText(record.tag) + FieldsText(record.fields) + [NEWLINE]
  }

  function Text(records: seq<Record>): string {
    if records == [] then "" else RecordText(records[0]) + Text(records[1..])
  }

  lemma {:induction false} TextConcat(s: seq<Record>, t: seq<Record>)
    ensures Text(s + t) == Text(s) + Text(t)
  {
    hide RecordText;
    if s == [] {
      assert s + t == t;
    } else {
      TextConcat(s[1..], t);
      assert (s + t)[1..] == s[1..] + t && (s + t)[0] == s[0];
      assert Text(s + t) == RecordText(s[0]) + Text(s[1..] + t);
    }
  }

  method WriteRecord(record: Record) returns (line: string)
    ensures line == RecordText(record)
  {
    line := TagText(record.tag);
    hide TagText;
    for k := 0 to |record.fields|
      invariant line == TagText(record.tag) + FieldsText(record.fields[..k])
    {
      FieldsTextSnoc(record.fields[..k], record.fields[k]);
      assert record.fields[..k + 1] == record.fields[..k] + [record.fields[k]];
      line := line + [NUL] + record.fields[k];
    }
    assert record.fields[..|record.fields|] == record.fields;
    line := line + [NEWLINE];
  }

  /** Writes the records to the digest one at a time. */
  method WriteRecords(records: seq<Record>) returns (digest: string)
    ensures digest == Text(records)
  {
    digest := "";
    for i := 0 to |records|
      invariant digest == Text(records[..i])
    {
      var line := WriteRecord(records[i]);
      digest := digest + line;
      TextConcat(records[..i], [records[i]]);
      assert records[..i + 1] == records[..i] + [records[i]];
      assert Text([records[i]]) == RecordText(records[i]) + Text([]);
      hide RecordText;
    }
    assert records[..|records|] == records;
  }

  lemma {:induction false} FieldsTextSnoc(fields: seq<string>, f: string)
    ensures FieldsText(fields + [f]) == FieldsText(fields) + [NUL] + f
  {
    if fields == [] {
      assert FieldsText([f]) == [NUL] + f + FieldsText([]);
    } else {
      FieldsTextSnoc(fields[1..], f);
      assert (fields + [f])[1..] == fields[1..] + [f];
    }
  }

  // ---- reading a text back ------------------------------------------------

  /** How far it is to the first NUL. */
  function Lead(s: string): nat {
    if s == "" || s[0] == NUL then 0 else 1 + Lead(s[1..])
  }

  lemma {:induction false} LeadOf(a: string, x: string)
    requires NUL !in a && (x == "" || x[0] == NUL)
    ensures Lead(a + x) == |a|
  {
    if a == "" {
      assert a + x == x;
    } else {
      assert a[0] in a && (a + x)[0] == a[0] && (a + x)[1..] == a[1..] + x;
      LeadOf(a[1..], x);
    }
  }

  /** Splits off what stands before the first NUL. */
  lemma {:induction false} SplitAtNul(a: string, x: string, b: string, y: string)
    requires NUL !in a && NUL !in b
    requires x == "" || x[0] == NUL
    requires y == "" || y[0] == NUL
    requires a + x == b + y
    ensures a == b && x == y
  {
    LeadOf(a, x);
    LeadOf(b, y);
    assert a == (a + x)[..|a|] && b == (b + y)[..|b|];
    assert x == (a + x)[|a|..] && y == (b + y)[|b|..];
  }

  /** Where the last line starts. */
  function LastLine(s: string): nat {
    if s == "" then 0 else if s[|s| - 1] == NEWLINE then |s| else LastLine(s[..|s| - 1])
  }

  lemma {:induction false} LastLineOf(p: string, word: string)
    requires OnItsOwnLine(p) && NEWLINE !in word
    ensures LastLine(p + word) == |p|
    decreases |word|
  {
    if word == "" {
      assert p + word == p;
    } else {
      var n := |word| - 1;
      assert word[n] in word && (p + word)[|p| + n] == word[n] && (p + word)[..|p| + n] == p + word[..n];
      LastLineOf(p, word[..n]);
    }
  }

  ghost predicate OnItsOwnLine(p: string) {
    NUL !in p && (p == "" || p[|p| - 1] == NEWLINE)
  }

  lemma {:induction false} TagsAreWords(tag: Tag)
    ensures NUL !in TagText(tag) && NEWLINE !in TagText(tag) && TagText(tag) != ""
  {
  }

  lemma {:induction false} TagsDiffer(a: Tag, b: Tag)
    requires TagText(a) == TagText(b)
    ensures a == b
  {
    assert TagText(a)[0] == TagText(b)[0] && |TagText(a)| == |TagText(b)|;
  }

  /** The last newline before a tag ends the field before it. */
  lemma {:induction false} SplitAtTag(p: string, a: Tag, q: string, b: Tag)
    requires OnItsOwnLine(p) && OnItsOwnLine(q) && p + TagText(a) == q + TagText(b)
    ensures p == q && a == b
  {
    TagsAreWords(a);
    TagsAreWords(b);
    LastLineOf(p, TagText(a));
    LastLineOf(q, TagText(b));
    var whole := p + TagText(a);
    assert p == whole[..|p|] && q == whole[..|q|];
    assert TagText(a) == whole[|p|..] && TagText(b) == whole[|q|..];
    TagsDiffer(a, b);
  }

  /** Everything a record's fields leave after their NULs: what follows the
      last field's NUL is that field, a newline, and the next record's tag. */
  function Rest(fields: seq<string>, after: string): string {
    FieldsText(fields) + [NEWLINE] + after
  }

  lemma {:induction false} TailText(p: string, records: seq<Record>)
    requires records != []
    ensures p + Text(records) == (p + TagText(records[0].tag)) + Rest(records[0].fields, Text(records[1..]))
  {
  }

  /** What follows the last NUL of a list of fields, and what stands before. */
  lemma {:induction false} SplitFields(f: seq<string>, x: string, g: seq<string>, y: string)
    requires |f| == |g| > 0 && Rest(f, x) == Rest(g, y)
    requires forall s | s in f :: NUL !in s
    requires forall s | s in g :: NUL !in s
    ensures f[..|f| - 1] == g[..|g| - 1]
    ensures f[|f| - 1] + [NEWLINE] + x == g[|g| - 1] + [NEWLINE] + y
    decreases |f|
  {
    var a, b := f[0], g[0];
    assert a in f && b in g;
    if |f| == 1 {
      assert Rest(f, x) == [NUL] + (a + [NEWLINE] + x) by { assert FieldsText(f) == [NUL] + a + FieldsText(f[1..]); }
      assert Rest(g, y) == [NUL] + (b + [NEWLINE] + y) by { assert FieldsText(g) == [NUL] + b + FieldsText(g[1..]); }
      assert Rest(f, x)[1..] == a + [NEWLINE] + x && Rest(g, y)[1..] == b + [NEWLINE] + y;
    } else {
      assert Rest(f, x) == [NUL] + (a + Rest(f[1..], x));
      assert Rest(g, y) == [NUL] + (b + Rest(g[1..], y));
      assert Rest(f, x)[1..] == a + Rest(f[1..], x) && Rest(g, y)[1..] == b + Rest(g[1..], y);
      StartsWithNul(f[1..], x);
      StartsWithNul(g[1..], y);
      SplitAtNul(a, Rest(f[1..], x), b, Rest(g[1..], y));
      SplitFields(f[1..], x, g[1..], y);
      assert f[..|f| - 1] == [a] + f[1..][..|f| - 2] && g[..|g| - 1] == [b] + g[1..][..|g| - 2];
    }
  }

  lemma {:induction false} StartsWithNul(f: seq<string>, x: string)
    requires f != []
    ensures Rest(f, x) != "" && Rest(f, x)[0] == NUL
  {
  }

  /** With what is left of a line in front, a text is read in one way only. */
  lemma {:induction false} ReadOneWay(p: string, s: seq<Record>, q: string, t: seq<Record>)
    requires OnItsOwnLine(p) && OnItsOwnLine(q)
    requires forall r | r in s :: Whole(r)
    requires forall r | r in t :: Whole(r)
    requires p + Text(s) == q + Text(t)
    ensures p == q && s == t
    decreases |s| + |t|
  {
    hide *;
    HasRecords(p, s);
    HasRecords(q, t);
    if s == [] {
      assert p + Text(s) == p && q + Text(t) == q by { TextOfNone(); }
    } else {
      TailText(p, s);
      TailText(q, t);
      assert s[0] in s && t[0] in t;
      WholeFields(s[0]);
      WholeFields(t[0]);
      LeadsNoNul(p, s[0].tag);
      LeadsNoNul(q, t[0].tag);
      StartsWithNul(s[0].fields, Text(s[1..]));
      StartsWithNul(t[0].fields, Text(t[1..]));
      SplitAtNul(p + TagText(s[0].tag), Rest(s[0].fields, Text(s[1..])),
                 q + TagText(t[0].tag), Rest(t[0].fields, Text(t[1..])));
      SplitAtTag(p, s[0].tag, q, t[0].tag);
      SplitFields(s[0].fields, Text(s[1..]), t[0].fields, Text(t[1..]));
      ReadRest(s, t);
    }
  }

  lemma {:induction false} TextOfNone()
    ensures Text([]) == ""
  {
  }

  lemma {:induction false} WholeFields(record: Record)
    requires Whole(record)
    ensures |record.fields| == Arity(record.tag) > 0 && forall f | f in record.fields :: NUL !in f
  {
  }

  lemma {:induction false} LeadsNoNul(p: string, tag: Tag)
    requires OnItsOwnLine(p)
    ensures NUL !in p + TagText(tag)
  {
  }

  lemma {:induction false} ReadRest(s: seq<Record>, t: seq<Record>)
    requires s != [] && t != [] && s[0].tag == t[0].tag
    requires forall r | r in s :: Whole(r)
    requires forall r | r in t :: Whole(r)
    requires var n := |s[0].fields|;
      && n > 0 && |t[0].fields| == n
      && s[0].fields[..n - 1] == t[0].fields[..n - 1]
      && s[0].fields[n - 1] + [NEWLINE] + Text(s[1..]) == t[0].fields[n - 1] + [NEWLINE] + Text(t[1..])
    ensures s == t
    decreases |s| + |t|, 0
  {
    hide *;
    var n := |s[0].fields|;
    var a, b := s[0].fields[n - 1], t[0].fields[n - 1];
    assert s[0] in s && t[0] in t && a in s[0].fields && b in t[0].fields;
    WholeFields(s[0]);
    WholeFields(t[0]);
    forall r | r in s[1..] ensures Whole(r) { assert r in s; }
    forall r | r in t[1..] ensures Whole(r) { assert r in t; }
    EndsLine(a);
    EndsLine(b);
    ReadOneWay(a + [NEWLINE], s[1..], b + [NEWLINE], t[1..]);
    assert a == (a + [NEWLINE])[..|a|] && b == (b + [NEWLINE])[..|b|];
    assert s[0].fields == s[0].fields[..n - 1] + [a] && t[0].fields == t[0].fields[..n - 1] + [b];
    assert s == [s[0]] + s[1..] && t == [t[0]] + t[1..];
  }

  lemma {:induction false} EndsLine(field: string)
    requires NUL !in field
    ensures OnItsOwnLine(field + [NEWLINE])
  {
  }

  lemma {:induction false} HasRecords(p: string, s: seq<Record>)
    requires OnItsOwnLine(p) && forall r | r in s :: Whole(r)
    ensures NUL in p + Text(s) <==> s != []
  {
    if s == [] {
      assert p + Text(s) == p;
    } else {
      assert s[0] in s;
      TailText(p, s);
      StartsWithNul(s[0].fields, Text(s[1..]));
      var lead := p + TagText(s[0].tag);
      assert (p + Text(s))[|lead|] == NUL;
      hide Text;
    }
  }

  /** Two lists of records with one text are one list. */
  lemma {:induction false} UniquelyDecodable(s: seq<Record>, t: seq<Record>)
    requires forall r | r in s :: Whole(r)
    requires forall r | r in t :: Whole(r)
    requires Text(s) == Text(t)
    ensures s == t
  {
    assert "" + Text(s) == Text(s) && "" + Text(t) == Text(t);
    ReadOneWay("", s, "", t);
  }
}
