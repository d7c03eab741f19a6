/** The input on which a replay fails. The canonical form of an item writes '<' as a six-character escape, so an
    item that came within a frame can be stored in a form that no longer fits one. */
module ReplayLimit {
  import opened Options
  import opened Ordering
  import opened ResponseState
  import opened CodexEncoder
  import opened CodexStream
  import opened CodexReplay

  // A JSON library. With `html` it writes '<' as an escape, as canonical items are; it reads both forms.

  function Escaped(c: char, html: bool): string {
    if c == '<' && html then "\\u003c" else if c == '"' || c == '\\' then ['\\', c] else [c]
  }

  /** The rest of a string literal, up to its closing quote. */
  function Quoted(s: string, html: bool): (text: string)
    ensures |s| + 1 <= |text| <= 6 * |s| + 1
  {
    if s == "" then "\"" else Escaped(s[0], html) + Quoted(s[1..], html)
  }

  /** A field's value; one that is neither a string nor null is kept as a marked string. */
  function ValueText(value: Field, html: bool): string {
    match value
    case Text(s) => ['"'] + Quoted(s, html)
    case Null => "null"
    case Other(raw) => ['~'] + Quoted(raw, html)
  }

  function MemberText(key: string, value: Field, html: bool): string {
    ['"'] + (Quoted(key, html) + ([':'] + ValueText(value, html)))
  }

  function MembersText(keys: seq<string>, fields: map<string, Field>, html: bool): string
    requires keys != [] && forall k | k in keys :: k in fields
  {
    MemberText(keys[0], fields[keys[0]], html) + if |keys| == 1 then "}" else "," + MembersText(keys[1..], fields, html)
  }

  function SortedKeys(fields: map<string, Field>): (keys: seq<string>)
    ensures Elements(keys) == fields.Keys && |keys| == |fields| && Ascending(keys, StringLe) && forall k | k in keys :: k in fields
  {
    StringLeIsTotal();
    Sorted(fields.Keys, StringLe)
  }

  function ObjectText(fields: map<string, Field>, html: bool): string {
    "{" + if SortedKeys(fields) == [] then "}" else MembersText(SortedKeys(fields), fields, html)
  }

  ghost function ReadObject(text: string): Json {
    if exists fields: map<string, Field>, html: bool :: ObjectText(fields, html) == text then
      var fields: map<string, Field>, html: bool :| ObjectText(fields, html) == text;
      Object(fields)
    else Invalid
  }

  ghost function Html(): JsonCodec {
    JsonCodec(text => ReadObject(text), fields => ObjectText(fields, true), text => text)
  }

  // Each piece of text determines what was written, and where the next piece starts.

  lemma EscapedSplits(c: char, a: bool, x: string, d: char, b: bool, y: string)
    requires Escaped(c, a) + x == Escaped(d, b) + y
    ensures c == d && x == y
  {
    var p, q := Escaped(c, a), Escaped(d, b);
    assert (p + x)[0] == p[0] && (q + y)[0] == q[0];
    if p[0] == '\\' { assert (p + x)[1] == p[1] && (q + y)[1] == q[1]; }
    assert (p + x)[|p|..] == x && (q + y)[|q|..] == y;
  }

  lemma {:induction false} QuotedSplits(s: string, a: bool, x: string, t: string, b: bool, y: string)
    requires Quoted(s, a) + x == Quoted(t, b) + y
    ensures s == t && x == y
    decreases |s|
  {
    QuotedHead(s, a, x);
    QuotedHead(t, b, y);
    if s != "" && t != "" {
      EscapedSplits(s[0], a, Quoted(s[1..], a) + x, t[0], b, Quoted(t[1..], b) + y);
      QuotedSplits(s[1..], a, x, t[1..], b, y);
      assert s == [s[0]] + s[1..] && t == [t[0]] + t[1..];
    } else if s == "" && t == "" {
      assert (Quoted(s, a) + x)[1..] == x && (Quoted(t, b) + y)[1..] == y;
    }
  }

  lemma QuotedHead(s: string, a: bool, x: string)
    ensures (Quoted(s, a) + x)[0] == '"' <==> s == ""
    ensures s != "" ==> Quoted(s, a) + x == Escaped(s[0], a) + (Quoted(s[1..], a) + x)
  {}

  lemma Cut(p: string, x: string, q: string, y: string)
    requires p + x == q + y && |p| == |q|
    ensures p == q && x == y
  {
    assert (p + x)[..|p|] == p && (q + y)[..|q|] == q;
    assert (p + x)[|p|..] == x && (q + y)[|q|..] == y;
  }

  lemma MarkedSplits(mark: char, s: string, a: bool, x: string, t: string, b: bool, y: string)
    requires ([mark] + Quoted(s, a)) + x == ([mark] + Quoted(t, b)) + y
    ensures s == t && x == y
  {
    hide Quoted;
    assert ([mark] + Quoted(s, a)) + x == [mark] + (Quoted(s, a) + x) && ([mark] + Quoted(t, b)) + y == [mark] + (Quoted(t, b) + y);
    Cut([mark], Quoted(s, a) + x, [mark], Quoted(t, b) + y);
    QuotedSplits(s, a, x, t, b, y);
  }

  function Opening(v: Field): char {
    match v
    case Text(_) => '"'
    case Null => 'n'
    case Other(_) => '~'
  }

  lemma ValueOpens(v: Field, a: bool, x: string)
    ensures ValueText(v, a) + x != [] && (ValueText(v, a) + x)[0] == Opening(v)
  {
    hide Quoted;
  }

  lemma ValueSplits(v: Field, a: bool, x: string, w: Field, b: bool, y: string)
    requires ValueText(v, a) + x == ValueText(w, b) + y
    ensures v == w && x == y
  {
    hide Quoted;
    ValueOpens(v, a, x);
    ValueOpens(w, b, y);
    match v {
      case Text(s) =>
        MarkedSplits('"', s, a, x, w.s, b, y);
      case Null =>
        Cut(ValueText(v, a), x, ValueText(w, b), y);
      case Other(raw) =>
        MarkedSplits('~', raw, a, x, w.raw, b, y);
    }
  }

  lemma MemberSplits(k: string, v: Field, a: bool, x: string, l: string, w: Field, b: bool, y: string)
    requires MemberText(k, v, a) + x == MemberText(l, w, b) + y
    ensures k == l && v == w && x == y
  {
    hide Quoted, ValueText;
    var s, t := [':'] + (ValueText(v, a) + x), [':'] + (ValueText(w, b) + y);
    assert MemberText(k, v, a) + x == (['"'] + Quoted(k, a)) + s;
    assert MemberText(l, w, b) + y == (['"'] + Quoted(l, b)) + t;
    MarkedSplits('"', k, a, s, l, b, t);
    Cut([':'], ValueText(v, a) + x, [':'], ValueText(w, b) + y);
    ValueSplits(v, a, x, w, b, y);
  }

  lemma {:induction false} MembersSplit(keys: seq<string>, f: map<string, Field>, a: bool, others: seq<string>, g: map<string, Field>, b: bool)
    requires keys != [] && others != [] && (forall k | k in keys :: k in f) && forall k | k in others :: k in g
    requires MembersText(keys, f, a) == MembersText(others, g, b)
    ensures keys == others && forall k | k in keys :: f[k] == g[k]
    decreases |keys|
  {
    hide MemberText;
    var x := if |keys| == 1 then "}" else "," + MembersText(keys[1..], f, a);
    var y := if |others| == 1 then "}" else "," + MembersText(others[1..], g, b);
    MemberSplits(keys[0], f[keys[0]], a, x, others[0], g[others[0]], b, y);
    assert |keys| == 1 <==> |others| == 1 by { assert x[0] == y[0]; }
    assert keys == [keys[0]] + keys[1..] && others == [others[0]] + others[1..];
    if |keys| != 1 {
      Cut(",", MembersText(keys[1..], f, a), ",", MembersText(others[1..], g, b));
      MembersSplit(keys[1..], f, a, others[1..], g, b);
    }
  }

  /** An object's text determines its fields, in whichever form it was written. */
  lemma ObjectTextIsInjective(f: map<string, Field>, a: bool, g: map<string, Field>, b: bool)
    requires ObjectText(f, a) == ObjectText(g, b)
    ensures f == g
  {
    hide SortedKeys, MemberText;
    var keys, others := SortedKeys(f), SortedKeys(g);
    var x := if keys == [] then "}" else MembersText(keys, f, a);
    var y := if others == [] then "}" else MembersText(others, g, b);
    Cut("{", x, "{", y);
    assert keys == [] <==> others == [] by {
      if keys != [] { MembersStart(keys, f, a); }
      if others != [] { MembersStart(others, g, b); }
    }
    if keys != [] { MembersSplit(keys, f, a, others, g, b); }
    assert f.Keys == g.Keys;
    forall k | k in f ensures f[k] == g[k] { assert k in Elements(keys); }
  }

  lemma MembersStart(keys: seq<string>, f: map<string, Field>, html: bool)
    requires keys != [] && forall k | k in keys :: k in f
    ensures MembersText(keys, f, html)[0] == '"'
  {}

  lemma HtmlReads(fields: map<string, Field>, html: bool)
    ensures Html().decode(ObjectText(fields, html)) == Object(fields)
  {
    var text := ObjectText(fields, html);
    hide ObjectText;
    assert exists f: map<string, Field>, h: bool :: ObjectText(f, h) == text;
    forall f: map<string, Field>, h: bool | ObjectText(f, h) == text ensures f == fields {
      ObjectTextIsInjective(f, h, fields, html);
    }
  }

  lemma HtmlIsLawful()
    ensures Lawful(Html())
  {
    assert forall f: map<string, Field>, h: bool :: ObjectText(f, h)[0] == '{';
    assert Html().decode("") == Invalid;
    hide ObjectText;
    forall fields ensures Html().decode(Html().encode(fields)) == Object(fields) { HtmlReads(fields, true); }
  }

  // The item.

  const BULK := 1_000_000

  function Bulk(): (s: string)
    ensures |s| == BULK && forall i | 0 <= i < |s| :: s[i] == '<'
  {
    seq(BULK, _ => '<')
  }

  /** A reasoning item whose summary is a million '<'. */
  function Thought(): map<string, Field> {
    map["type" := Text(TYPE_REASONING), "summary" := Text(Bulk())]
  }

  lemma {:induction false} BulkLength(s: string, html: bool)
    requires forall i | 0 <= i < |s| :: s[i] == '<'
    ensures |Quoted(s, html)| == (if html then 6 else 1) * |s| + 1
    decreases |s|
  {
    if s != "" { BulkLength(s[1..], html); }
  }

  lemma TwoMembers(fields: map<string, Field>, a: string, b: string, html: bool)
    requires fields.Keys == {a, b} && a != b
    ensures |ObjectText(fields, html)| == 3 + |MemberText(a, fields[a], html)| + |MemberText(b, fields[b], html)|
  {
    hide MemberText;
    var keys := SortedKeys(fields);
    assert |fields.Keys| == |{a, b}| == 2;
    assert |keys| == 2 && keys[0] in Elements(keys) && keys[1] in Elements(keys);
    hide SortedKeys;
    var last := keys[1..];
    assert last == [keys[1]] && MembersText(last, fields, html) == MemberText(keys[1], fields[keys[1]], html) + "}";
    assert MembersText(keys, fields, html) == MemberText(keys[0], fields[keys[0]], html) + ("," + MembersText(last, fields, html));
  }

  lemma MemberLength(key: string, s: string, html: bool)
    ensures |MemberText(key, Text(s), html)| == 3 + |Quoted(key, html)| + |Quoted(s, html)|
  {
    hide Quoted;
  }

  lemma ThoughtLength(html: bool)
    ensures var n := |ObjectText(Thought(), html)| - (if html then 6 else 1) * BULK; 0 <= n < 1000
  {
    hide Bulk, ObjectText, MemberText, Quoted;
    TwoMembers(Thought(), "type", "summary", html);
    MemberLength("type", TYPE_REASONING, html);
    MemberLength("summary", Bulk(), html);
    BulkLength(Bulk(), html);
  }

  /** It came within a frame, yet its canonical form is larger than one. */
  lemma ThoughtOutgrows()
    ensures 0 < |ObjectText(Thought(), false)| <= MAX_STREAM_FRAME_BYTES < |ObjectText(Thought(), true)| <= MAX_OUTPUT_BYTES
  {
    ThoughtLength(false);
    ThoughtLength(true);
    hide ObjectText, Thought;
  }

  ghost function Reader(): Decoder {
    Decoder(Html(), _ => Some([]))
  }

  function Stream(): seq<Event> {
    [ItemDone(ObjectText(Thought(), false)), Completed("response", None)]
  }

  lemma ThoughtFields()
    ensures Fields(Thought()) == Some(State(TYPE_REASONING, "", "", "")) && Str(Thought(), "id") == Some("")
    ensures Canonical(Thought()) == Thought()
  {}

  lemma ReaderReads()
    ensures var dec, item := Reader(), ObjectText(Thought(), false);
      && dec.json == Html() && dec.json.decode(item) == Object(Thought()) && dec.contents(Thought()).Some?
      && dec.json.encode(Thought()) == ObjectText(Thought(), true)
  {
    hide ObjectText, Thought, ReadObject;
    HtmlReads(Thought(), false);
  }

  lemma ReasoningIsTaken(dec: Decoder, item: string, fields: map<string, Field>)
    requires item != "" && |item| <= MAX_STREAM_FRAME_BYTES && dec.json.decode(item) == Object(fields) && dec.contents(fields).Some?
    requires Fields(fields) == Some(State(TYPE_REASONING, "", "", "")) && Str(fields, "id").Some? && Canonical(fields) == fields
    requires |dec.json.encode(fields)| <= MAX_OUTPUT_BYTES
    ensures ItemAcceptable(dec, [], item) && StateText(dec, item) == dec.json.encode(fields)
    ensures ItemState(dec, item).kind == TYPE_REASONING
  {
    hide Fields, Str, Canonical;
    assert TotalLength(StateTexts(dec, [])) == 0;
  }

  lemma StreamIsTaken(dec: Decoder, item: string)
    requires ItemAcceptable(dec, [], item) && ItemState(dec, item).kind == TYPE_REASONING
    ensures var h := [ItemDone(item), Completed("response", None)];
      AllAcceptable(dec, h) && StateTexts(dec, h) == [StateText(dec, item)] && ResponseMessage(dec, h).Some?
  {
    hide ItemAcceptable, ItemState, StateText, Contents, TextOfStream, RefusalOfStream, TextPosition, Parts;
    var first, last := ItemDone(item), Completed("response", None);
    assert TYPE_REASONING != TYPE_FUNCTION_CALL;
    assert [] + [first] == [first] && [first] + [last] == [first, last];
    Extended(dec, [], first);
    Extended(dec, [first], last);
    hide AllAcceptable, StateTexts;
  }

  /** The item is taken and the stream completes, yet the message built from it cannot be sent back. */
  lemma OutgrownItemIsNotReplayed()
    ensures Lawful(Reader().json) && AllAcceptable(Reader(), Stream())
    ensures |Stream()[0].item| <= MAX_STREAM_FRAME_BYTES
    ensures ResponseMessage(Reader(), Stream()).Some? && !Encodable(Reader().json, ResponseMessage(Reader(), Stream()).value)
  {
    var dec, item, h := Reader(), ObjectText(Thought(), false), Stream();
    ThoughtOutgrows();
    ThoughtFields();
    ReaderReads();
    HtmlIsLawful();
    hide Html, ObjectText, Lawful, Thought, ItemAcceptable, ItemState, StateText, StateTexts, ResponseMessage, Encodable, AllAcceptable, Reader,
      Fields, Str, Canonical;
    ReasoningIsTaken(dec, item, Thought());
    StreamIsTaken(dec, item);
    MessageReplays(dec, h);
    assert StateTexts(dec, h)[0] == StateText(dec, item);
  }
}
