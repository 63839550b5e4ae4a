/** The legacy metadata object: decoding, encoding and merging the four reviewed settings. */
module Metadata {
  import opened Basics
  import opened Sorting

  type Text = seq<char>

  type Object = map<string, Text>

  /** JSON lexing as functions. `key` reads a quoted string and `value` one value at the start of a
      text, with the number of characters they take; `utf8` says which strings JSON can carry. */
  datatype Codec = Codec(
    valid: Text -> bool,
    marshal: string -> Text,
    unmarshal: Text -> Option<string>,
    key: Text -> Option<(string, nat)>,
    value: Text -> Option<nat>,
    utf8: string -> bool)

  /** The white space of JSON, section 2 of RFC 8259. */
  predicate IsJsonSpace(c: char) {
    c == ' ' || c == '\t' || c == '\n' || c == '\r'
  }

  function SkipSpace(text: Text): (rest: Text)
    ensures |rest| <= |text|
  {
    if text != "" && IsJsonSpace(text[0]) then SkipSpace(text[1..]) else text
  }

  /** No white space at either end. */
  predicate Tidy(raw: Text) {
    raw != "" && !IsJsonSpace(raw[0]) && !IsJsonSpace(raw[|raw| - 1])
  }

  predicate Ascii(text: string) {
    forall i :: 0 <= i < |text| ==> text[i] < '\U{80}'
  }

  /** The facts used about JSON: strings that JSON can carry survive, a value ends where it ends
      whatever delimiter follows, and what is read as a key or a value is one, without white space. */
  ghost predicate Lawful(codec: Codec) {
    && (forall k :: Ascii(k) ==> codec.utf8(k))
    && (forall k, rest :: codec.utf8(k) ==> codec.key(codec.marshal(k) + rest) == Some((k, |codec.marshal(k)|)))
    && (forall k :: codec.marshal(k) != "" && codec.marshal(k)[0] == '"')
    && (forall s ::
          codec.valid(codec.marshal(s)) && Tidy(codec.marshal(s)) && Trim(codec.marshal(s)) == codec.marshal(s))
    && (forall s :: codec.utf8(s) ==> codec.unmarshal(codec.marshal(s)) == Some(s))
    && (forall s, r :: codec.unmarshal(s) == Some(r) ==> codec.utf8(r))
    && (forall raw, rest :: codec.valid(raw) && Tidy(raw) && rest != "" && (rest[0] == ',' || rest[0] == '}') ==>
          codec.value(raw + rest) == Some(|raw|))
    && (forall text, k, n :: codec.key(text) == Some((k, n)) ==> codec.utf8(k))
    && (forall text, n :: codec.value(text) == Some(n) && 0 < n <= |text| && !IsJsonSpace(text[0]) ==>
          codec.valid(text[..n]) && Tidy(text[..n]))
  }

  // ----- decoding -----

  /** The member at the start of a text: key, raw value and the rest. */
  function Member(codec: Codec, text: Text): Option<(string, Text, Text)> {
    if text == "" || text[0] != '"' then None
    else
      match codec.key(text)
      case None => None
      case Some((key, n)) =>
        if !(0 < n <= |text|) then None
        else
          var colon := SkipSpace(text[n..]);
          if colon == "" || colon[0] != ':' then None
          else
            var start := SkipSpace(colon[1..]);
            match codec.value(start)
            case None => None
            case Some(m) => if 0 < m <= |start| then Some((key, start[..m], start[m..])) else None
  }

  lemma MemberShrinks(codec: Codec, text: Text)
    requires Member(codec, text).Some?
    ensures |Member(codec, text).value.2| < |text|
  {
  }

  /** The members up to the closing brace, and the text after it; a repeated key is refused. */
  function Members(codec: Codec, text: Text, fields: Object, first: bool): Option<(Object, Text)>
    decreases |text|
  {
    var t := SkipSpace(text);
    if t == "" || t[0] == ']' then None
    else if t[0] == '}' then Some((fields, t[1..]))
    else if !first && t[0] != ',' then None
    else
      var start := if first then t else SkipSpace(t[1..]);
      match Member(codec, start)
      case None => None
      case Some((key, raw, rest)) =>
        MemberShrinks(codec, start);
        if key in fields then None else Members(codec, rest, fields[key := raw], false)
  }

  function Decoded(codec: Codec, metadata: Text): Option<Object> {
    var trimmed := Trim(metadata);
    if trimmed == "" || trimmed == "null" then Some(map[])
    else
      var t := SkipSpace(trimmed);
      if t == "" || t[0] != '{' then None
      else
        match Members(codec, t[1..], map[], true)
        case None => None
        case Some((fields, rest)) => if SkipSpace(rest) == "" then Some(fields) else None
  }

  method DecodeObject(codec: Codec, metadata: Text) returns (decoded: Option<Object>)
    ensures decoded == Decoded(codec, metadata)
  {
    var trimmed := Trim(metadata);
    if trimmed == "" || trimmed == "null" { return Some(map[]); }
    var t := SkipSpace(trimmed);
    if t == "" || t[0] != '{' { return None; }
    ghost var whole := Members(codec, t[1..], map[], true);
    var fields: Object, text, first := map[], SkipSpace(t[1..]), true;
    SkipTwice(t[1..]);
    while text != "" && text[0] != '}' && text[0] != ']'
      invariant text == SkipSpace(text) && whole == Members(codec, text, fields, first)
      decreases |text|
    {
      if !first && text[0] != ',' { return None; }
      var start := if first then text else SkipSpace(text[1..]);
      var member := Member(codec, start);
      if member.None? { return None; }
      MemberShrinks(codec, start);
      var key, raw, rest := member.value.0, member.value.1, member.value.2;
      if key in fields { return None; }
      fields := fields[key := raw];
      SkipTwice(rest);
      MembersSkip(codec, rest, fields);
      text, first := SkipSpace(rest), false;
    }
    if text == "" || text[0] == ']' { return None; }
    if SkipSpace(text[1..]) != "" { return None; }
    return Some(fields);
  }

  lemma {:induction false} SkipTwice(text: Text)
    ensures SkipSpace(SkipSpace(text)) == SkipSpace(text)
  {
    if text != "" && IsJsonSpace(text[0]) { SkipTwice(text[1..]); }
  }

  lemma MembersSkip(codec: Codec, text: Text, fields: Object)
    ensures Members(codec, SkipSpace(text), fields, false) == Members(codec, text, fields, false)
    ensures Members(codec, SkipSpace(text), fields, true) == Members(codec, text, fields, true)
  {
    SkipTwice(text);
  }

  // ----- which texts decode -----

  predicate Blank(text: Text) {
    forall i :: 0 <= i < |text| ==> text[i] == ' ' || text[i] == '\t' || text[i] == '\n' || text[i] == '\r'
  }

  /** One member as it is written: its quoted key and raw value with white space around them. */
  datatype Field = Field(lead: Text, quoted: Text, key: string, colon: Text, gap: Text, raw: Text, end: Text)

  function Written(f: Field): Text { f.lead + (f.quoted + (f.colon + (":" + (f.gap + (f.raw + f.end))))) }

  /** What follows the key of a member when this follows the member. */
  function AfterKey(f: Field, rest: Text): Text { f.colon + (":" + (f.gap + (f.raw + (f.end + rest)))) }

  /** In front of that text the key and the value of the member are read to their ends. */
  ghost predicate ReadsAs(codec: Codec, f: Field, rest: Text) {
    && Blank(f.lead) && Blank(f.colon) && Blank(f.gap) && Blank(f.end)
    && f.quoted != "" && f.quoted[0] == '"' && f.raw != "" && !Blank(f.raw[..1])
    && codec.key(f.quoted + AfterKey(f, rest)) == Some((f.key, |f.quoted|))
    && codec.value(f.raw + (f.end + rest)) == Some(|f.raw|)
  }

  /** A text that lists these members, with commas between them, and then a closing brace. */
  ghost predicate Lists(codec: Codec, text: Text, list: seq<Field>, first: bool, rest: Text)
    decreases |list|
  {
    if list == [] then text == "}" + rest
    else
      var head := (if first then "" else ",") + Written(list[0]);
      && head <= text && ReadsAs(codec, list[0], text[|head|..])
      && Lists(codec, text[|head|..], list[1..], false, rest)
  }

  /** The members have distinct keys, none of them known before, and make up what was gained. */
  ghost predicate Adds(list: seq<Field>, from: Object, fields: Object) {
    && (forall i, j :: 0 <= i < j < |list| ==> list[i].key != list[j].key)
    && (forall i :: 0 <= i < |list| ==> list[i].key !in from)
    && (forall i :: 0 <= i < |list| ==> list[i].key in fields && fields[list[i].key] == list[i].raw)
    && (forall key :: key in from ==> key in fields && fields[key] == from[key])
    && (forall key :: key in fields ==> key in from || exists i :: 0 <= i < |list| && list[i].key == key)
  }

  lemma {:induction false} SkipMeans(text: Text) returns (pad: Text)
    ensures Blank(pad) && text == pad + SkipSpace(text)
    ensures SkipSpace(text) != "" ==> !Blank(SkipSpace(text)[..1])
  {
    if text != "" && IsJsonSpace(text[0]) {
      var rest := SkipMeans(text[1..]);
      pad := [text[0]] + rest;
    } else {
      pad := "";
    }
  }

  lemma {:induction false} SkipBlank(pad: Text, text: Text)
    requires Blank(pad)
    ensures SkipSpace(pad + text) == SkipSpace(text)
  {
    if pad == "" {
      assert pad + text == text;
    } else {
      assert (pad + text)[1..] == pad[1..] + text;
      SkipBlank(pad[1..], text);
    }
  }

  lemma SkipNothing(text: Text)
    requires text != "" && !Blank(text[..1])
    ensures SkipSpace(text) == text
  {
  }

  lemma Associates(a: Text, b: Text, c: Text)
    ensures a + b + c == a + (b + c)
  {
  }

  lemma WrittenThen(f: Field, rest: Text)
    ensures Written(f) + rest == f.lead + (f.quoted + AfterKey(f, rest))
  {
    Associates(f.raw, f.end, rest);
    Associates(f.gap, f.raw + f.end, rest);
    Associates(":", f.gap + (f.raw + f.end), rest);
    Associates(f.colon, ":" + (f.gap + (f.raw + f.end)), rest);
    Associates(f.quoted, f.colon + (":" + (f.gap + (f.raw + f.end))), rest);
    Associates(f.lead, f.quoted + (f.colon + (":" + (f.gap + (f.raw + f.end)))), rest);
  }

  lemma SkipTo(pad: Text, text: Text)
    requires Blank(pad) && text != "" && !Blank(text[..1])
    ensures SkipSpace(pad + text) == text
  {
    SkipBlank(pad, text);
    SkipNothing(text);
  }

  /** A member that is read is written so, up to the next character that is not white space. */
  lemma MemberIsWritten(codec: Codec, text: Text) returns (f: Field, rest: Text)
    requires Member(codec, text).Some?
    ensures text == Written(f) + rest && ReadsAs(codec, f, rest) && f.lead == ""
    ensures Member(codec, text) == Some((f.key, f.raw, f.end + rest)) && SkipSpace(rest) == rest
  {
    hide SkipSpace, Written;
    var (key, n) := codec.key(text).value;
    var colon := SkipSpace(text[n..]);
    var start := SkipSpace(colon[1..]);
    var m := codec.value(start).value;
    var before := SkipMeans(text[n..]);
    var gap := SkipMeans(colon[1..]);
    var end := SkipMeans(start[m..]);
    rest := SkipSpace(start[m..]);
    SkipTwice(start[m..]);
    f := Field("", text[..n], key, before, gap, start[..m], end);
    assert start == f.raw + (f.end + rest) && colon == ":" + colon[1..];
    assert text == f.quoted + AfterKey(f, rest) == f.lead + (f.quoted + AfterKey(f, rest));
    WrittenThen(f, rest);
    assert f.raw[..1] == start[..1];
  }

  /** And what is written so is read as that member. */
  lemma WrittenIsMember(codec: Codec, f: Field, rest: Text)
    requires ReadsAs(codec, f, rest) && f.lead == ""
    ensures Member(codec, Written(f) + rest) == Some((f.key, f.raw, f.end + rest))
  {
    hide SkipSpace, Written;
    var text, start := f.quoted + AfterKey(f, rest), f.raw + (f.end + rest);
    WrittenThen(f, rest);
    assert Written(f) + rest == text && text[|f.quoted|..] == AfterKey(f, rest);
    assert (":" + (f.gap + start))[..1] == ":" && (":" + (f.gap + start))[1..] == f.gap + start;
    assert ":"[0] == ':';
    SkipTo(f.colon, ":" + (f.gap + start));
    assert start[..1] == f.raw[..1];
    SkipTo(f.gap, start);
    assert start[..|f.raw|] == f.raw && start[|f.raw|..] == f.end + rest;
  }

  lemma AddsMore(f: Field, list: seq<Field>, from: Object, fields: Object)
    ensures Adds([f] + list, from, fields) <==> f.key !in from && Adds(list, from[f.key := f.raw], fields)
  {
    hide Adds;
    if Adds([f] + list, from, fields) { AddsRest(f, list, from, fields); }
    if f.key !in from && Adds(list, from[f.key := f.raw], fields) { AddsFirst(f, list, from, fields); }
  }

  lemma AddsFirst(f: Field, list: seq<Field>, from: Object, fields: Object)
    requires f.key !in from && Adds(list, from[f.key := f.raw], fields)
    ensures Adds([f] + list, from, fields)
  {
    var all := [f] + list;
    forall i | 0 <= i < |all|
      ensures all[i].key !in from && all[i].key in fields && fields[all[i].key] == all[i].raw
      ensures i > 0 ==> all[i].key != f.key
    {
      if i > 0 { assert all[i] == list[i - 1]; }
    }
    forall i, j | 0 <= i < j < |all| ensures all[i].key != all[j].key {
      if i > 0 { assert all[i] == list[i - 1] && all[j] == list[j - 1]; }
    }
    forall key | key in fields ensures key in from || exists i :: 0 <= i < |all| && all[i].key == key {
      if key == f.key {
        assert all[0].key == key;
      } else if key !in from {
        var i :| 0 <= i < |list| && list[i].key == key;
        assert all[i + 1].key == key;
      }
    }
  }

  lemma AddsRest(f: Field, list: seq<Field>, from: Object, fields: Object)
    requires Adds([f] + list, from, fields)
    ensures f.key !in from && Adds(list, from[f.key := f.raw], fields)
  {
    var all := [f] + list;
    assert all[0] == f;
    forall i | 0 <= i < |list|
      ensures list[i].key !in from[f.key := f.raw] && list[i].key in fields && fields[list[i].key] == list[i].raw
    {
      assert all[i + 1] == list[i] && all[0].key != all[i + 1].key;
    }
    forall i, j | 0 <= i < j < |list| ensures list[i].key != list[j].key {
      assert all[i + 1].key != all[j + 1].key;
    }
    forall key | key in fields
      ensures key in from[f.key := f.raw] || exists i :: 0 <= i < |list| && list[i].key == key
    {
      if key !in from {
        var i :| 0 <= i < |all| && all[i].key == key;
        assert i > 0 ==> list[i - 1].key == key;
      }
    }
  }

  lemma {:induction false} MembersAreListed(codec: Codec, text: Text, from: Object, first: bool)
    returns (list: seq<Field>)
    requires Members(codec, text, from, first).Some?
    ensures var (fields, rest) := Members(codec, text, from, first).value;
            Lists(codec, SkipSpace(text), list, first, rest) && Adds(list, from, fields)
    decreases |text|
  {
    hide ReadsAs, Written, Member;
    var t := SkipSpace(text);
    if t[0] == '}' {
      list := [];
      assert t == "}" + t[1..];
    } else {
      var start := if first then t else SkipSpace(t[1..]);
      var pad := "";
      if !first { pad := SkipMeans(t[1..]); }
      MemberShrinks(codec, start);
      var f, rest := MemberIsWritten(codec, start);
      var more := MembersAreListed(codec, f.end + rest, from[f.key := f.raw], false);
      SkipBlankEnd(codec, f, rest);
      var g := WithLead(codec, f, pad, rest);
      list := [g] + more;
      AddsMore(g, more, from, Members(codec, text, from, first).value.0);
      var head := (if first then "" else ",") + Written(g);
      assert t == head + rest;
      assert list[0] == g && list[1..] == more && t[|head|..] == rest;
    }
  }

  lemma SkipBlankEnd(codec: Codec, f: Field, rest: Text)
    requires ReadsAs(codec, f, rest)
    ensures SkipSpace(f.end + rest) == SkipSpace(rest)
  {
    SkipBlank(f.end, rest);
  }

  lemma WithLead(codec: Codec, f: Field, pad: Text, rest: Text) returns (g: Field)
    requires ReadsAs(codec, f, rest) && Blank(pad) && f.lead == ""
    ensures g == f.(lead := pad) && ReadsAs(codec, g, rest) && Written(g) == pad + Written(f)
  {
    g := f.(lead := pad);
  }

  lemma {:induction false} ListedAreMembers(
    codec: Codec, text: Text, from: Object, first: bool, list: seq<Field>, fields: Object, rest: Text)
    requires Lists(codec, text, list, first, rest) && Adds(list, from, fields)
    ensures Members(codec, text, from, first) == Some((fields, rest))
    decreases |list|
  {
    hide ReadsAs, Written, Member;
    if list == [] {
      assert fields == from;
      assert SkipSpace(text) == text;
    } else {
      var f, head := list[0], (if first then "" else ",") + Written(list[0]);
      var tail := text[|head|..];
      assert text == head + tail && list == [f] + list[1..];
      AddsMore(f, list[1..], from, fields);
      ListedAreMembers(codec, tail, from[f.key := f.raw], false, list[1..], fields, rest);
      MembersSkip(codec, tail, from[f.key := f.raw]);
      MembersSkip(codec, f.end + tail, from[f.key := f.raw]);
      SkipBlankEnd(codec, f, tail);
      MembersOnce(codec, text, from, first, f, tail);
    }
  }

  lemma MembersOnce(codec: Codec, text: Text, from: Object, first: bool, f: Field, tail: Text)
    requires text == (if first then "" else ",") + Written(f) + tail && ReadsAs(codec, f, tail) && f.key !in from
    ensures Members(codec, text, from, first) == Members(codec, f.end + tail, from[f.key := f.raw], false)
  {
    hide Member;
    var bare := f.(lead := "");
    WrittenIsMember(codec, bare, tail);
    var plain := Written(bare) + tail;
    assert plain[..1] == f.quoted[..1];
    SkipNothing(plain);
    assert Written(f) + tail == f.lead + plain;
    SkipBlank(f.lead, plain);
    var t := SkipSpace(text);
    if first {
      assert text == Written(f) + tail;
    } else {
      assert text[1..] == Written(f) + tail && text[..1] == ",";
      SkipNothing(text);
    }
    MemberShrinks(codec, plain);
  }

  /** An object in braces, with white space where JSON allows it and nothing behind. */
  ghost predicate Document(codec: Codec, text: Text, fields: Object) {
    exists before, pad, body, after, list ::
      && Blank(before) && Blank(pad) && Blank(after) && text == before + "{" + pad + body
      && Lists(codec, body, list, true, after) && Adds(list, map[], fields)
  }

  /** What decodes to an object is, once trimmed, nothing, null, or a document that lists exactly its members,
      each key once. */
  lemma DecodedExactly(codec: Codec, metadata: Text, fields: Object)
    ensures Decoded(codec, metadata) == Some(fields) <==>
              || (Trim(metadata) in ["", "null"] && fields == map[])
              || Document(codec, Trim(metadata), fields)
  {
    hide Members, Document, SkipSpace, Trim;
    var text := Trim(metadata);
    if text != "" && text != "null" && Decoded(codec, metadata) == Some(fields) {
      DecodedIsDocument(codec, text, fields);
    }
    if Document(codec, text, fields) { DocumentIsDecoded(codec, text, fields); }
  }

  lemma DecodedIsDocument(codec: Codec, text: Text, fields: Object)
    requires SkipSpace(text) != "" && SkipSpace(text)[0] == '{'
    requires Members(codec, SkipSpace(text)[1..], map[], true).Some?
    requires var (gained, rest) := Members(codec, SkipSpace(text)[1..], map[], true).value;
             gained == fields && SkipSpace(rest) == ""
    ensures Document(codec, text, fields)
  {
    hide Members, Lists, Adds, SkipSpace, Blank;
    var t := SkipSpace(text);
    var before := SkipMeans(text);
    var pad := SkipMeans(t[1..]);
    var list := MembersAreListed(codec, t[1..], map[], true);
    var rest := Members(codec, t[1..], map[], true).value.1;
    var after := SkipMeans(rest);
    assert rest == after;
    assert t == "{" + (pad + SkipSpace(t[1..])) && text == before + "{" + pad + SkipSpace(t[1..]);
  }

  lemma DocumentIsDecoded(codec: Codec, text: Text, fields: Object)
    requires Document(codec, text, fields)
    ensures text != "" && text != "null" && SkipSpace(text) != "" && SkipSpace(text)[0] == '{'
    ensures Members(codec, SkipSpace(text)[1..], map[], true).Some?
    ensures var (gained, rest) := Members(codec, SkipSpace(text)[1..], map[], true).value;
            gained == fields && SkipSpace(rest) == ""
  {
    hide Members, Lists, Adds, SkipSpace;
    var before, pad, body, after, list :|
      && Blank(before) && Blank(pad) && Blank(after) && text == before + "{" + pad + body
      && Lists(codec, body, list, true, after) && Adds(list, map[], fields);
    ListedAreMembers(codec, body, map[], true, list, fields, after);
    MembersSkip(codec, body, map[]);
    MembersSkip(codec, pad + body, map[]);
    SkipBlank(pad, body);
    var braced := "{" + (pad + body);
    assert text == before + braced && braced[..1] == "{" && braced[1..] == pad + body;
    assert "{"[0] == '{';
    SkipTo(before, braced);
    SkipBlank(after, "");
    assert after + "" == after;
    assert SkipSpace("") == "" by { EmptySkip(); }
    assert text[|before|] == '{' && "null"[0] == 'n' && "null"[1] == 'u' && "null"[2] == 'l' && "null"[3] == 'l';
  }

  lemma EmptySkip()
    ensures SkipSpace("") == ""
  {
  }

  // ----- encoding -----

  function Self(key: string): Key { [key] }

  /** The keys of an object, each once, in the order Go sorts strings. */
  ghost predicate Listing(keys: seq<string>, fields: Object) {
    SortedBy(Self, keys) && DistinctBy(Self, keys) && forall key :: key in keys <==> key in fields
  }

  /** The members from some key on, and the closing brace. */
  function Tail(codec: Codec, fields: Object, keys: seq<string>, first: bool): Text
    requires forall key :: key in keys ==> key in fields
  {
    if keys == [] then "}"
    else
      (if first then "" else ",") + codec.marshal(keys[0]) + ":" + fields[keys[0]]
          + Tail(codec, fields, keys[1..], false)
  }

  predicate Writable(codec: Codec, fields: Object) {
    forall key :: key in fields ==> fields[key] != "" && codec.valid(fields[key])
  }

  /** Whether this is the encoding: refused for a value that is not JSON, else the sorted members. */
  ghost predicate Encodes(codec: Codec, fields: Object, encoded: Option<Text>) {
    && encoded.Some? == Writable(codec, fields)
    && (encoded.Some? ==>
        exists keys :: Listing(keys, fields) && encoded.value == "{" + Tail(codec, fields, keys, true))
  }

  lemma ListingIsUnique(a: seq<string>, b: seq<string>, fields: Object)
    requires Listing(a, fields) && Listing(b, fields)
    ensures a == b
  {
    forall key ensures multiset(a)[key] == multiset(b)[key] {
      OnceOnly(Self, a, key);
      OnceOnly(Self, b, key);
      assert key in multiset(a) <==> key in a;
      assert key in multiset(b) <==> key in b;
    }
    assert multiset(a) == multiset(b);
    SortedIsUnique(Self, a, b);
  }

  /** The encoding is a function of the object alone: no order of iteration can change it. */
  lemma EncodingIsUnique(codec: Codec, fields: Object, a: Option<Text>, b: Option<Text>)
    requires Encodes(codec, fields, a) && Encodes(codec, fields, b)
    ensures a == b
  {
    hide Tail, Writable;
    if a.Some? {
      var x :| Listing(x, fields) && a.value == "{" + Tail(codec, fields, x, true);
      var y :| Listing(y, fields) && b.value == "{" + Tail(codec, fields, y, true);
      ListingIsUnique(x, y, fields);
    }
  }

  /** The keys in whatever order the map yields them. */
  method Keys(fields: Object) returns (keys: seq<string>)
    ensures Listing(keys, fields)
  {
    keys := [];
    var remaining := fields.Keys;
    while remaining != {}
      invariant remaining <= fields.Keys && DistinctBy(Self, keys)
      invariant forall key :: key in keys <==> key in fields && key !in remaining
    {
      var key :| key in remaining;
      keys := keys + [key];
      remaining := remaining - {key};
    }
    ghost var unsorted := keys;
    keys := Sort(Self, keys);
    SortIsSorted(Self, unsorted);
    DistinctIsOrderless(Self, unsorted, keys);
    SameKeys(unsorted, keys);
  }

  lemma SameKeys(a: seq<string>, b: seq<string>)
    requires multiset(a) == multiset(b)
    ensures forall key :: key in a <==> key in b
  {
    forall key ensures key in a <==> key in b {
      assert key in a <==> key in multiset(a);
      assert key in b <==> key in multiset(b);
    }
  }

  lemma {:induction false} TailSplits(codec: Codec, fields: Object, keys: seq<string>, first: bool, i: nat)
    requires (forall key :: key in keys ==> key in fields) && i < |keys|
    ensures Tail(codec, fields, keys[i..], first)
         == (if first then "" else ",") + codec.marshal(keys[i]) + ":" + fields[keys[i]]
             + Tail(codec, fields, keys[i + 1..], false)
  {
    assert keys[i..][1..] == keys[i + 1..];
  }

  method EncodeObject(codec: Codec, fields: Object) returns (encoded: Option<Text>)
    ensures Encodes(codec, fields, encoded)
  {
    hide Listing, Tail;
    var keys := Keys(fields);
    KeysAreFields(keys, fields);
    var buffer := "{";
    assert buffer + Tail(codec, fields, keys, true) == "{" + Tail(codec, fields, keys, true);
    assert keys[0..] == keys;
    for index := 0 to |keys|
      invariant "{" + Tail(codec, fields, keys, true) == buffer + Tail(codec, fields, keys[index..], index == 0)
      invariant forall j :: 0 <= j < index ==> fields[keys[j]] != "" && codec.valid(fields[keys[j]])
    {
      var raw := fields[keys[index]];
      if |raw| == 0 || !codec.valid(raw) { return None; }
      TailSplits(codec, fields, keys, index == 0, index);
      if index != 0 { buffer := buffer + ","; }
      buffer := buffer + codec.marshal(keys[index]);
      buffer := buffer + ":";
      buffer := buffer + raw;
    }
    assert keys[|keys|..] == [];
    buffer := buffer + "}";
    assert Tail(codec, fields, [], |keys| == 0) == "}" by { EmptyTail(codec, fields, |keys| == 0); }
    return Some(buffer);
  }

  lemma EmptyTail(codec: Codec, fields: Object, first: bool)
    ensures Tail(codec, fields, [], first) == "}"
  {
  }

  lemma KeysAreFields(keys: seq<string>, fields: Object)
    requires Listing(keys, fields)
    ensures forall key :: key in keys ==> key in fields
    ensures forall key :: key in fields ==> exists j :: 0 <= j < |keys| && keys[j] == key
  {
  }

  // ----- the round trip -----

  /** What a decoded object always looks like, and an encoded one must to come back. */
  ghost predicate Clean(codec: Codec, fields: Object) {
    forall key :: key in fields ==> codec.utf8(key) && codec.valid(fields[key]) && Tidy(fields[key])
  }

  lemma KeyIsRead(codec: Codec, key: string, rest: Text)
    requires Lawful(codec) && codec.utf8(key)
    ensures codec.key(codec.marshal(key) + rest) == Some((key, |codec.marshal(key)|))
    ensures codec.marshal(key) != "" && codec.marshal(key)[0] == '"'
  {
  }

  lemma ValueIsRead(codec: Codec, raw: Text, rest: Text)
    requires Lawful(codec) && codec.valid(raw) && Tidy(raw) && rest != "" && (rest[0] == ',' || rest[0] == '}')
    ensures codec.value(raw + rest) == Some(|raw|)
  {
  }

  lemma MemberAtStart(codec: Codec, key: string, raw: Text, rest: Text)
    requires Lawful(codec) && codec.utf8(key) && codec.valid(raw) && Tidy(raw) && rest != ""
    requires (rest[0] == ',' || rest[0] == '}')
    ensures Member(codec, codec.marshal(key) + ":" + raw + rest) == Some((key, raw, rest))
  {
    hide Lawful;
    var quoted, colon := codec.marshal(key), ":" + raw + rest;
    var text := quoted + ":" + raw + rest;
    assert text == quoted + colon;
    KeyIsRead(codec, key, colon);
    ValueIsRead(codec, raw, rest);
    assert text[|quoted|..] == colon && SkipSpace(colon) == colon;
    assert colon[1..] == raw + rest && SkipSpace(raw + rest) == raw + rest;
    assert (raw + rest)[..|raw|] == raw && (raw + rest)[|raw|..] == rest;
  }

  lemma MemberIsClean(codec: Codec, text: Text)
    requires Lawful(codec) && Member(codec, text).Some?
    ensures var (key, raw, _) := Member(codec, text).value; codec.utf8(key) && codec.valid(raw) && Tidy(raw)
  {
    var n := codec.key(text).value.1;
    var start := SkipSpace(SkipSpace(text[n..])[1..]);
    SkipEnds(SkipSpace(text[n..])[1..]);
    assert codec.key(text) == Some((codec.key(text).value.0, n));
    assert codec.value(start) == Some(codec.value(start).value);
  }

  lemma {:induction false} SkipEnds(text: Text)
    ensures SkipSpace(text) != "" ==> !IsJsonSpace(SkipSpace(text)[0])
  {
    if text != "" && IsJsonSpace(text[0]) { SkipEnds(text[1..]); }
  }

  lemma {:induction false} MembersAreClean(codec: Codec, text: Text, fields: Object, first: bool)
    requires Lawful(codec) && Clean(codec, fields) && Members(codec, text, fields, first).Some?
    ensures Clean(codec, Members(codec, text, fields, first).value.0)
    decreases |text|
  {
    hide Lawful, Member, Tidy;
    var t := SkipSpace(text);
    if t[0] != '}' {
      var start := if first then t else SkipSpace(t[1..]);
      MemberShrinks(codec, start);
      MemberIsClean(codec, start);
      var (key, raw, rest) := Member(codec, start).value;
      MembersAreClean(codec, rest, fields[key := raw], false);
    }
  }

  /** Whatever text an object was decoded from, its keys and raw values are clean. */
  lemma DecodedIsClean(codec: Codec, metadata: Text)
    requires Lawful(codec) && Decoded(codec, metadata).Some?
    ensures Clean(codec, Decoded(codec, metadata).value)
  {
    hide Lawful;
    var trimmed := Trim(metadata);
    if trimmed != "" && trimmed != "null" { MembersAreClean(codec, SkipSpace(trimmed)[1..], map[], true); }
  }

  /** The fields gained by reading these keys. */
  function Gained(fields: Object, keys: seq<string>, from: Object): Object
    requires forall key :: key in keys ==> key in fields
    decreases |keys|
  {
    if keys == [] then from else Gained(fields, keys[1..], from[keys[0] := fields[keys[0]]])
  }

  lemma {:induction false} GainedAll(fields: Object, keys: seq<string>, from: Object)
    requires forall key :: key in keys ==> key in fields
    requires forall key :: key in from ==> key in fields && from[key] == fields[key]
    ensures forall key :: key in Gained(fields, keys, from) <==> key in from || key in keys
    ensures forall key :: key in Gained(fields, keys, from) ==>
              key in fields && Gained(fields, keys, from)[key] == fields[key]
    decreases |keys|
  {
    if keys != [] { GainedAll(fields, keys[1..], from[keys[0] := fields[keys[0]]]); }
  }

  lemma TailStarts(codec: Codec, fields: Object, keys: seq<string>)
    requires forall key :: key in keys ==> key in fields
    ensures Tail(codec, fields, keys, false) != ""
    ensures Tail(codec, fields, keys, false)[0] == ',' || Tail(codec, fields, keys, false)[0] == '}'
  {
  }

  lemma MarshalQuotes(codec: Codec, key: string, rest: Text)
    requires Lawful(codec)
    ensures (codec.marshal(key) + rest) != "" && (codec.marshal(key) + rest)[0] == '"'
    ensures SkipSpace(codec.marshal(key) + rest) == codec.marshal(key) + rest
  {
  }

  lemma {:induction false} MembersOfTail(codec: Codec, fields: Object, keys: seq<string>, from: Object, first: bool)
    requires Lawful(codec) && Clean(codec, fields) && DistinctBy(Self, keys)
    requires (forall key :: key in keys ==> key in fields) && (forall key :: key in keys ==> key !in from)
    ensures Members(codec, Tail(codec, fields, keys, first), from, first) == Some((Gained(fields, keys, from), ""))
    decreases |keys|
  {
    hide Lawful, Member, Tidy;
    if keys == [] {
      assert SkipSpace("}") == "}" && "}"[1..] == "";
    } else {
      var key, raw := keys[0], fields[keys[0]];
      var rest := Tail(codec, fields, keys[1..], false);
      var start := codec.marshal(key) + ":" + raw + rest;
      TailStarts(codec, fields, keys[1..]);
      MemberAtStart(codec, key, raw, rest);
      MarshalQuotes(codec, key, ":" + raw + rest);
      assert start == codec.marshal(key) + (":" + raw + rest);
      var text := Tail(codec, fields, keys, first);
      assert text == (if first then start else "," + start);
      assert forall j :: 0 < j < |keys| ==> Self(keys[0]) != Self(keys[j]);
      assert DistinctBy(Self, keys[1..]);
      MembersOfTail(codec, fields, keys[1..], from[key := raw], false);
      OneMember(codec, text, start, from, first, key, raw, rest);
    }
  }

  lemma OneMember(
    codec: Codec, text: Text, start: Text, fields: Object, first: bool, key: string, raw: Text, rest: Text)
    requires text == (if first then start else "," + start)
    requires start != "" && start[0] == '"' && SkipSpace(start) == start
    requires Member(codec, start) == Some((key, raw, rest)) && key !in fields && |rest| < |text|
    ensures Members(codec, text, fields, first) == Members(codec, rest, fields[key := raw], false)
  {
    if !first { assert text[1..] == start; }
  }

  lemma {:induction false} TrimBraces(text: Text)
    requires |text| >= 2 && text[0] == '{' && text[|text| - 1] == '}'
    ensures Trim(text) == text
  {
  }

  lemma {:induction false} TailEnds(codec: Codec, fields: Object, keys: seq<string>, first: bool)
    requires forall key :: key in keys ==> key in fields
    ensures Tail(codec, fields, keys, first) != ""
    ensures Tail(codec, fields, keys, first)[|Tail(codec, fields, keys, first)| - 1] == '}'
    decreases |keys|
  {
    if keys != [] { TailEnds(codec, fields, keys[1..], false); }
  }

  lemma CleanComesBack(codec: Codec, fields: Object, encoded: Text)
    requires Lawful(codec) && Clean(codec, fields) && Encodes(codec, fields, Some(encoded))
    ensures Decoded(codec, encoded) == Some(fields)
  {
    hide Lawful, Clean, Tail, Members;
    var keys :| Listing(keys, fields) && encoded == "{" + Tail(codec, fields, keys, true);
    TailEnds(codec, fields, keys, true);
    TrimBraces(encoded);
    MembersOfTail(codec, fields, keys, map[], true);
    GainedAll(fields, keys, map[]);
    assert Gained(fields, keys, map[]) == fields;
    assert encoded[1..] == Tail(codec, fields, keys, true);
  }

  /** An encoded object decodes to itself exactly when every key is a string JSON can carry and no
      raw value has white space around it. */
  lemma RoundTripExactlyWhenClean(codec: Codec, fields: Object, encoded: Text)
    requires Lawful(codec) && Encodes(codec, fields, Some(encoded))
    ensures Decoded(codec, encoded) == Some(fields) <==>
              forall key :: key in fields ==> codec.utf8(key) && Tidy(fields[key])
  {
    hide Lawful, Decoded, Tail;
    if forall key :: key in fields ==> codec.utf8(key) && Tidy(fields[key]) {
      assert Clean(codec, fields);
      CleanComesBack(codec, fields, encoded);
    }
    if Decoded(codec, encoded) == Some(fields) { DecodedIsClean(codec, encoded); }
  }

  /** Any text that decodes can be encoded again, and the two decode alike. */
  lemma DecodedObjectsComeBack(codec: Codec, metadata: Text, encoded: Option<Text>)
    requires Lawful(codec) && Decoded(codec, metadata).Some? && Encodes(codec, Decoded(codec, metadata).value, encoded)
    ensures encoded.Some? && Decoded(codec, encoded.value) == Decoded(codec, metadata)
  {
    hide Lawful, Decoded, Tail;
    DecodedIsClean(codec, metadata);
    CleanComesBack(codec, Decoded(codec, metadata).value, encoded.value);
  }

  /** Padding around a raw value is lost. */
  lemma PaddedValueDoesNotComeBack(codec: Codec, fields: Object, encoded: Text)
    requires Lawful(codec) && Encodes(codec, fields, Some(encoded)) && "a" in fields && fields["a"] == " 1"
    ensures Decoded(codec, encoded) != Some(fields)
  {
    hide Lawful, Decoded, Encodes;
    RoundTripExactlyWhenClean(codec, fields, encoded);
  }

  // ----- the four reviewed settings -----

  datatype Settings = Settings(mallName: string, orderPrefix: string, senderName: string, senderPhone: string)

  const MALL_NAME := "mall_name"
  const ORDER_PREFIX := "ewePrefix"
  const SENDER_NAME := "default_sender_name"
  const SENDER_PHONE := "default_sender_phone"

  predicate Reviewed(key: string) {
    key == MALL_NAME || key == ORDER_PREFIX || key == SENDER_NAME || key == SENDER_PHONE
  }

  function ValueOf(settings: Settings, key: string): string
    requires Reviewed(key)
  {
    if key == MALL_NAME then settings.mallName
    else if key == ORDER_PREFIX then settings.orderPrefix
    else if key == SENDER_NAME then settings.senderName
    else settings.senderPhone
  }

  /** A missing or null field reads as the empty text. */
  function StringOf(codec: Codec, fields: Object, key: string): Option<string> {
    if key !in fields || Trim(fields[key]) == "null" then Some("") else codec.unmarshal(fields[key])
  }

  function GeneralOf(codec: Codec, metadata: Text): Option<Settings> {
    match Decoded(codec, metadata)
    case None => None
    case Some(fields) =>
      var mallName := StringOf(codec, fields, MALL_NAME);
      var orderPrefix := StringOf(codec, fields, ORDER_PREFIX);
      var senderName := StringOf(codec, fields, SENDER_NAME);
      var senderPhone := StringOf(codec, fields, SENDER_PHONE);
      if mallName.None? || orderPrefix.None? || senderName.None? || senderPhone.None? then None
      else Some(Settings(mallName.value, orderPrefix.value, senderName.value, senderPhone.value))
  }

  /** What a field says; a missing field or null says the empty text. */
  ghost predicate Says(codec: Codec, fields: Object, key: string, value: string) {
    if key in fields && Trim(fields[key]) != "null" then codec.unmarshal(fields[key]) == Some(value) else value == ""
  }

  /** A document reads as these settings exactly if its four fields say them. */
  lemma GeneralMeans(codec: Codec, metadata: Text, settings: Settings)
    ensures GeneralOf(codec, metadata) == Some(settings) <==>
              && Decoded(codec, metadata).Some?
              && var fields := Decoded(codec, metadata).value;
                 && Says(codec, fields, "mall_name", settings.mallName)
                 && Says(codec, fields, "ewePrefix", settings.orderPrefix)
                 && Says(codec, fields, "default_sender_name", settings.senderName)
                 && Says(codec, fields, "default_sender_phone", settings.senderPhone)
  {
    hide Decoded;
  }

  /** Whether `merged` is `fields` with the reviewed keys set and nothing else changed. */
  ghost predicate Merges(codec: Codec, fields: Object, settings: Settings, merged: Object) {
    && (forall key :: key in merged <==> key in fields || Reviewed(key))
    && (forall key :: key in merged ==>
          merged[key] == if Reviewed(key) then codec.marshal(ValueOf(settings, key)) else fields[key])
  }

  method MergeGeneral(codec: Codec, metadata: Text, settings: Settings) returns (encoded: Option<Text>)
    ensures Decoded(codec, metadata).None? ==> encoded.None?
    ensures Decoded(codec, metadata).Some? ==>
              exists merged :: Merges(codec, Decoded(codec, metadata).value, settings, merged)
                  && Encodes(codec, merged, encoded)
  {
    hide Decoded, Encodes;
    var decoded := DecodeObject(codec, metadata);
    if decoded.None? { return None; }
    var fields := decoded.value;
    ReviewedKeys();
    var keys := [MALL_NAME, ORDER_PREFIX, SENDER_NAME, SENDER_PHONE];
    for k := 0 to |keys|
      invariant forall key :: key in fields <==> key in decoded.value || key in keys[..k]
      invariant forall key :: key in fields ==>
                  fields[key] == if key in keys[..k] then codec.marshal(ValueOf(settings, key)) else decoded.value[key]
    {
      fields := fields[keys[k] := codec.marshal(ValueOf(settings, keys[k]))];
      assert keys[..k + 1] == keys[..k] + [keys[k]];
    }
    assert keys[..|keys|] == keys;
    assert Merges(codec, decoded.value, settings, fields);
    encoded := EncodeObject(codec, fields);
  }

  lemma ReviewedKeys()
    ensures forall key :: Reviewed(key) <==> key in [MALL_NAME, ORDER_PREFIX, SENDER_NAME, SENDER_PHONE]
    ensures forall key :: Reviewed(key) ==> Ascii(key)
  {
  }

  predicate Representable(codec: Codec, settings: Settings) {
    codec.utf8(settings.mallName) && codec.utf8(settings.orderPrefix) && codec.utf8(settings.senderName)
        && codec.utf8(settings.senderPhone)
  }

  /** After a merge every other key keeps its value byte for byte, and the four settings read back
      as the new values exactly when JSON can carry them. */
  lemma MergeSetsOnlyReviewed(codec: Codec, metadata: Text, settings: Settings, merged: Object, encoded: Option<Text>)
    requires Lawful(codec) && Decoded(codec, metadata).Some?
    requires Merges(codec, Decoded(codec, metadata).value, settings, merged) && Encodes(codec, merged, encoded)
    ensures encoded.Some? && Decoded(codec, encoded.value) == Some(merged)
    ensures forall key :: key !in ["mall_name", "ewePrefix", "default_sender_name", "default_sender_phone"] ==>
              var before := Decoded(codec, metadata).value;
              (key in merged <==> key in before) && (key in before ==> merged[key] == before[key])
    ensures GeneralOf(codec, encoded.value) == Some(settings) <==> Representable(codec, settings)
  {
    hide Lawful, Decoded, Encodes;
    DecodedIsClean(codec, metadata);
    MergedIsClean(codec, Decoded(codec, metadata).value, settings, merged);
    CleanIsWritten(codec, merged, encoded);
    CleanComesBack(codec, merged, encoded.value);
    ReadsBack(codec, settings.mallName, merged, MALL_NAME);
    ReadsBack(codec, settings.orderPrefix, merged, ORDER_PREFIX);
    ReadsBack(codec, settings.senderName, merged, SENDER_NAME);
    ReadsBack(codec, settings.senderPhone, merged, SENDER_PHONE);
  }

  lemma MergedIsClean(codec: Codec, fields: Object, settings: Settings, merged: Object)
    requires Lawful(codec) && Clean(codec, fields) && Merges(codec, fields, settings, merged)
    ensures Clean(codec, merged)
  {
    ReviewedKeys();
  }

  lemma CleanIsWritten(codec: Codec, fields: Object, encoded: Option<Text>)
    requires Clean(codec, fields) && Encodes(codec, fields, encoded)
    ensures encoded.Some?
  {
  }

  lemma ReadsBack(codec: Codec, value: string, fields: Object, key: string)
    requires Lawful(codec) && key in fields && fields[key] == codec.marshal(value)
    ensures StringOf(codec, fields, key) == Some(value) <==> codec.utf8(value)
  {
    assert codec.marshal(value)[0] == '"';
    assert codec.marshal(value) != "null";
  }

  // ----- the laws can be met -----

  function Escaped(text: string): string {
    if text == "" then ""
    else (if text[0] == '"' then "~q" else if text[0] == '~' then "~t" else [text[0]]) + Escaped(text[1..])
  }

  function Unescaped(text: string): string {
    if text == "" then ""
    else if text[0] == '~' && |text| >= 2 then (if text[1] == 'q' then "\"" else "~") + Unescaped(text[2..])
    else [text[0]] + Unescaped(text[1..])
  }

  function QuoteAt(text: string): (i: nat)
    ensures i <= |text| && '"' !in text[..i] && (i < |text| ==> text[i] == '"')
  {
    if text == "" || text[0] == '"' then 0 else 1 + QuoteAt(text[1..])
  }

  function ReadQuoted(text: Text): Option<(string, nat)> {
    if text == "" || text[0] != '"' then None
    else
      var i := QuoteAt(text[1..]);
      if i == |text| - 1 then None else Some((Unescaped(text[1..][..i]), i + 2))
  }

  predicate IsQuoted(text: Text) { ReadQuoted(text).Some? && ReadQuoted(text).value.1 == |text| }

  predicate IsDigit(c: char) { '0' <= c <= '9' }

  predicate IsScalar(text: Text) {
    IsQuoted(text) || (|text| == 1 && IsDigit(text[0]))
  }

  function StripRight(text: Text): Text {
    if text != "" && IsJsonSpace(text[|text| - 1]) then StripRight(text[..|text| - 1]) else text
  }

  predicate IsPaddedScalar(text: Text) { IsScalar(StripRight(SkipSpace(text))) }

  function Quoted(text: string): Text { "\"" + Escaped(text) + "\"" }

  function Unquoted(text: Text): Option<string> {
    if IsQuoted(text) then Some(ReadQuoted(text).value.0) else None
  }

  function ReadScalar(text: Text): Option<nat> {
    if text != "" && IsDigit(text[0]) then Some(1)
    else if ReadQuoted(text).Some? then Some(ReadQuoted(text).value.1)
    else None
  }

  predicate AnyText(text: string) { true }

  /** Documents whose values are strings and single digits, with white space allowed around them. */
  const SCALARS := Codec(IsPaddedScalar, Quoted, Unquoted, ReadQuoted, ReadScalar, AnyText)

  lemma {:induction false} EscapedComesBack(text: string)
    ensures Unescaped(Escaped(text)) == text && '"' !in Escaped(text)
  {
    if text != "" {
      EscapedComesBack(text[1..]);
      var head, tail := Escaped(text)[..|Escaped(text)| - |Escaped(text[1..])|], Escaped(text[1..]);
      assert Escaped(text) == head + tail && text == [text[0]] + text[1..];
      if text[0] == '"' || text[0] == '~' {
        assert Escaped(text)[2..] == tail;
      } else {
        assert Escaped(text)[1..] == tail;
      }
    }
  }

  lemma {:induction false} QuoteFound(text: string, rest: string)
    requires '"' !in text
    ensures QuoteAt(text + "\"" + rest) == |text|
  {
    if text != "" {
      assert (text + "\"" + rest)[1..] == text[1..] + "\"" + rest;
      QuoteFound(text[1..], rest);
    }
  }

  lemma QuotedIsRead(text: string, rest: string)
    ensures ReadQuoted("\"" + Escaped(text) + "\"" + rest) == Some((text, |Escaped(text)| + 2))
  {
    var whole := "\"" + Escaped(text) + "\"" + rest;
    EscapedComesBack(text);
    assert whole[1..] == Escaped(text) + "\"" + rest;
    QuoteFound(Escaped(text), rest);
    assert whole[1..][..|Escaped(text)|] == Escaped(text);
  }

  lemma QuotedEnds(text: Text, n: nat, rest: Text)
    requires ReadQuoted(text).Some? && ReadQuoted(text).value.1 == n && n <= |text|
    ensures IsQuoted(text[..n]) && Tidy(text[..n]) && ReadQuoted(text[..n] + rest).Some?
    ensures ReadQuoted(text[..n] + rest).value.1 == n
  {
    var i := QuoteAt(text[1..]);
    var body := text[1..][..i];
    assert text[..n] == "\"" + body + "\"";
    assert text[..n][1..] == body + "\"" + "" && (text[..n] + rest)[1..] == body + "\"" + rest;
    QuoteFound(body, "");
    QuoteFound(body, rest);
  }

  lemma TidyIsStripped(raw: Text)
    ensures Tidy(raw) ==> StripRight(SkipSpace(raw)) == raw
  {
  }

  /** The facts assumed of JSON hold together: documents of strings and single digits satisfy them. */
  lemma LawsCanBeMet()
    ensures Lawful(SCALARS)
  {
    var c := SCALARS;
    forall k, rest ensures c.key(c.marshal(k) + rest) == Some((k, |c.marshal(k)|)) { QuotedIsRead(k, rest); }
    forall s ensures c.valid(c.marshal(s)) && Tidy(c.marshal(s)) && Trim(c.marshal(s)) == c.marshal(s)
        && c.unmarshal(c.marshal(s)) == Some(s) {
      QuotedIsRead(s, "");
      TidyIsStripped(c.marshal(s));
      assert c.marshal(s) + "" == c.marshal(s);
    }
    forall raw, rest | c.valid(raw) && Tidy(raw) ensures c.value(raw + rest) == Some(|raw|) {
      TidyIsStripped(raw);
      ScalarIsRead(raw, rest);
    }
    forall text, n | c.value(text) == Some(n) && n <= |text| ensures c.valid(text[..n]) && Tidy(text[..n]) {
      TidyIsStripped(text[..n]);
      if !('0' <= text[0] <= '9') { QuotedEnds(text, n, ""); }
    }
  }

  lemma ScalarIsRead(raw: Text, rest: Text)
    requires IsScalar(raw)
    ensures SCALARS.value(raw + rest) == Some(|raw|)
  {
    if IsQuoted(raw) {
      QuotedEnds(raw, |raw|, rest);
      assert raw[..|raw|] == raw;
    }
  }

  const PADDED: Object := map["a" := " 1"]

  lemma PaddedIsValid()
    ensures IsPaddedScalar(" 1") && Quoted("a") == "\"a\""
  {
    assert " 1"[1..] == "1" && SkipSpace("1") == "1" && StripRight("1") == "1";
    assert "a"[1..] == "" && Escaped("a") == "a";
  }

  lemma PaddedTail()
    ensures Listing(["a"], PADDED) && "{" + Tail(SCALARS, PADDED, ["a"], true) == "{\"a\": 1}"
  {
    hide Escaped, IsPaddedScalar;
    PaddedIsValid();
    assert ["a"][1..] == [] && ["a"][0] == "a";
    assert Tail(SCALARS, PADDED, ["a"], true) == SCALARS.marshal("a") + ":" + PADDED["a"]
        + Tail(SCALARS, PADDED, ["a"][1..], false);
    EmptyTail(SCALARS, PADDED, false);
  }

  /** An input on which the round trip fails: the member a with the raw value 1 behind a blank is
      encoded as it is, and decodes without the blank. */
  lemma PaddedExample()
    ensures Lawful(SCALARS) && Encodes(SCALARS, PADDED, Some("{\"a\": 1}"))
    ensures Decoded(SCALARS, "{\"a\": 1}") != Some(PADDED)
  {
    hide Lawful, Decoded, Tail, IsPaddedScalar, Listing;
    LawsCanBeMet();
    PaddedIsValid();
    PaddedTail();
    assert Writable(SCALARS, PADDED);
    assert Listing(["a"], PADDED) && "{" + Tail(SCALARS, PADDED, ["a"], true) == "{\"a\": 1}";
    PaddedValueDoesNotComeBack(SCALARS, PADDED, "{\"a\": 1}");
  }
}
