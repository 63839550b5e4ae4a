/** Searching checkpoints: the text typed by a user inside a LIKE pattern. */
module LikeSearch {
  import opened Basics

  function EscapeLike(value: string): string {
    ReplaceAll(ReplaceAll(ReplaceAll(value, '!', "!!"), '%', "!%"), '_', "!_")
  }

  /** One pass: each special character gets an escape in front. */
  function EscapeOnce(value: string): string {
    if value == "" then ""
    else (if value[0] == '!' || value[0] == '%' || value[0] == '_' then ['!', value[0]]
          else [value[0]]) + EscapeOnce(value[1..])
  }

  lemma {:induction false} ReplaceConcat(a: string, b: string, c: char, put: string)
    ensures ReplaceAll(a + b, c, put) == ReplaceAll(a, c, put) + ReplaceAll(b, c, put)
  {
    if a == "" {
      assert a + b == b;
    } else {
      assert (a + b)[1..] == a[1..] + b;
      ReplaceConcat(a[1..], b, c, put);
    }
  }

  /** The three passes and their order amount to one. */
  lemma {:induction false} ThreePassesAreOne(value: string)
    ensures EscapeLike(value) == EscapeOnce(value)
  {
    if value != "" {
      var head, rest := [value[0]], value[1..];
      assert value == head + rest;
      ThreePassesAreOne(rest);
      EscapeConcat(head, rest);
      OneCharacter(value[0]);
    }
  }

  lemma EscapeConcat(a: string, b: string)
    ensures EscapeLike(a + b) == EscapeLike(a) + EscapeLike(b)
  {
    var a1, b1 := ReplaceAll(a, '!', "!!"), ReplaceAll(b, '!', "!!");
    var a2, b2 := ReplaceAll(a1, '%', "!%"), ReplaceAll(b1, '%', "!%");
    ReplaceConcat(a, b, '!', "!!");
    ReplaceConcat(a1, b1, '%', "!%");
    ReplaceConcat(a2, b2, '_', "!_");
  }

  lemma OneOf(c: char, d: char, put: string)
    ensures ReplaceAll([c], d, put) == if c == d then put else [c]
  {
    assert [c][1..] == "";
    assert (if c == d then put else [c]) + "" == if c == d then put else [c];
  }

  lemma OneCharacter(c: char)
    ensures EscapeLike([c]) == if c == '!' || c == '%' || c == '_' then ['!', c] else [c]
  {
    OneOf(c, '!', "!!");
    OneOf(c, '%', "!%");
    OneOf(c, '_', "!_");
    OneOf('!', '%', "!%");
    OneOf('!', '_', "!_");
    OneOf('%', '_', "!_");
    ReplaceConcat("!", "!", '%', "!%");
    ReplaceConcat("!", "!", '_', "!_");
    ReplaceConcat("!", "%", '_', "!_");
    assert "!" + "!" == "!!" && "!" + "%" == "!%";
  }

  /** The LIKE predicate with ESCAPE '!', section 8.5 of ISO/IEC 9075-2. */
  predicate Like(text: string, pattern: string)
    decreases |text| + |pattern|
  {
    if pattern == "" then text == ""
    else if pattern[0] == '!' then |pattern| >= 2 && text != "" && text[0] == pattern[1]
    && Like(text[1..], pattern[2..])
    else if pattern[0] == '%' then Like(text, pattern[1..]) || (text != "" && Like(text[1..], pattern))
    else text != "" && (pattern[0] == '_' || text[0] == pattern[0]) && Like(text[1..], pattern[1..])
  }

  predicate Contains(text: string, part: string) {
    exists i :: 0 <= i <= |text| && part <= text[i..]
  }

  lemma {:induction false} EscapedMatchesItself(text: string, value: string, rest: string)
    ensures Like(text, EscapeOnce(value) + rest) <==> value <= text && Like(text[|value|..], rest)
    decreases |value|
  {
    var pattern := EscapeOnce(value) + rest;
    if value == "" {
      assert pattern == rest && text[0..] == text;
    } else {
      var tail := EscapeOnce(value[1..]) + rest;
      if value[0] == '!' || value[0] == '%' || value[0] == '_' {
        assert pattern == ['!', value[0]] + tail && pattern[2..] == tail;
      } else {
        assert pattern == [value[0]] + tail && pattern[1..] == tail;
      }
      if text != "" {
        EscapedMatchesItself(text[1..], value[1..], rest);
        assert value <= text <==> value[0] == text[0] && value[1..] <= text[1..] by { PrefixStep(value, text); }
        if value <= text { assert text[1..][|value[1..]|..] == text[|value|..]; }
      }
    }
  }

  lemma PrefixStep(a: string, b: string)
    requires a != "" && b != ""
    ensures a <= b <==> a[0] == b[0] && a[1..] <= b[1..]
  {
    if a[0] == b[0] && a[1..] <= b[1..] {
      assert forall i :: 1 <= i < |a| ==> a[i] == a[1..][i - 1] == b[1..][i - 1] == b[i];
    }
  }

  lemma {:induction false} PercentMatchesAnything(text: string)
    ensures Like(text, "%")
  {
    if text != "" { PercentMatchesAnything(text[1..]); }
  }

  lemma {:induction false} LeadingPercent(text: string, pattern: string)
    ensures Like(text, "%" + pattern) <==> exists i :: 0 <= i <= |text| && Like(text[i..], pattern)
    decreases |text|
  {
    assert ("%" + pattern)[1..] == pattern;
    assert text[0..] == text;
    if text != "" {
      LeadingPercent(text[1..], pattern);
      forall i | 0 < i <= |text| ensures Like(text[i..], pattern) == Like(text[1..][i - 1..], pattern) {
        assert text[1..][i - 1..] == text[i..];
      }
    }
  }

  function SearchPattern(needle: string): string { "%" + EscapeLike(needle) + "%" }

  /** The search pattern matches a text exactly when the text contains what was typed, whatever
      special characters that holds. */
  lemma PatternMeansContains(text: string, needle: string)
    ensures Like(text, SearchPattern(needle)) <==> Contains(text, needle)
  {
    hide Like, EscapeLike;
    ThreePassesAreOne(needle);
    var pattern := EscapeOnce(needle) + "%";
    assert SearchPattern(needle) == "%" + pattern;
    LeadingPercent(text, pattern);
    forall i | 0 <= i <= |text| ensures Like(text[i..], pattern) <==> needle <= text[i..] {
      EscapedMatchesItself(text[i..], needle, "%");
      if needle <= text[i..] { PercentMatchesAnything(text[i..][|needle|..]); }
    }
  }

  // ----- what escaping is for -----

  predicate Special(c: char) { c == '!' || c == '%' || c == '_' }

  predicate Plain(value: string) { forall i :: 0 <= i < |value| ==> !Special(value[i]) }

  /** The last escape character has nothing behind it to escape. */
  predicate Dangling(value: string) {
    if value == "" then false
    else if value[0] == '!' then |value| == 1 || Dangling(value[2..])
    else Dangling(value[1..])
  }

  /** A shortest text that matches a pattern, with a letter for each underscore. */
  function Sample(pattern: string): (text: string)
    ensures |text| <= |pattern| && (text == pattern ==> Plain(pattern))
  {
    if pattern == "" then ""
    else if pattern[0] == '!' then
      if |pattern| == 1 then "" else [pattern[1]] + Sample(pattern[2..])
    else if pattern[0] == '%' then Sample(pattern[1..])
    else
      var text := [if pattern[0] == '_' then 'a' else pattern[0]] + Sample(pattern[1..]);
      assert text[1..] == Sample(pattern[1..]) && pattern == [pattern[0]] + pattern[1..];
      text
  }

  lemma {:induction false} SampleMatches(pattern: string)
    requires !Dangling(pattern)
    ensures Like(Sample(pattern), pattern + "%")
  {
    if pattern == "" {
      PercentMatchesAnything("");
      assert pattern + "%" == "%";
    } else {
      var n, text := if pattern[0] == '!' then 2 else 1, Sample(pattern);
      SampleMatches(pattern[n..]);
      assert (pattern + "%")[n..] == pattern[n..] + "%";
      if pattern[0] != '%' { assert text[1..] == Sample(pattern[n..]); }
    }
  }

  /** A dangling escape character makes the percent sign behind it an ordinary one. */
  lemma {:induction false} DanglingEnds(text: string, pattern: string)
    requires Dangling(pattern) && Like(text, pattern + "%")
    ensures text != "" && text[|text| - 1] == '%'
    decreases |text| + |pattern|
  {
    var whole := pattern + "%";
    if pattern[0] == '!' && |pattern| == 1 {
      assert whole == "!%" && whole[2..] == "";
      assert text[1..] == "";
    } else {
      var n := if pattern[0] == '!' then 2 else 1;
      assert whole[n..] == pattern[n..] + "%";
      if pattern[0] == '%' && Like(text, whole[1..]) {
        DanglingEnds(text, pattern[1..]);
      } else if pattern[0] == '%' {
        DanglingEnds(text[1..], pattern);
      } else {
        DanglingEnds(text[1..], pattern[n..]);
      }
    }
  }

  lemma {:induction false} PlainIsItsEscape(value: string)
    requires Plain(value)
    ensures EscapeOnce(value) == value
  {
    if value != "" {
      PlainIsItsEscape(value[1..]);
      assert value == [value[0]] + value[1..];
    }
  }

  /** A text on which the unescaped pattern and containment disagree. */
  function Witness(needle: string): string {
    if Dangling(needle) then needle else Sample(needle)
  }

  lemma WitnessDisagrees(needle: string)
    requires !Plain(needle)
    ensures Like(Witness(needle), "%" + needle + "%") != Contains(Witness(needle), needle)
  {
    var text, pattern := Witness(needle), needle + "%";
    assert "%" + needle + "%" == "%" + pattern;
    LeadingPercent(text, pattern);
    assert text[0..] == text;
    if Dangling(needle) {
      if i :| 0 <= i <= |text| && Like(text[i..], pattern) { DanglingEnds(text[i..], needle); DanglingLast(needle); }
    } else {
      SampleMatches(needle);
      forall i | 0 <= i <= |text| ensures !(needle <= text[i..]) {
        assert needle <= text[i..] ==> i == 0 && needle == text;
      }
    }
  }

  lemma {:induction false} DanglingLast(value: string)
    requires Dangling(value)
    ensures value[|value| - 1] == '!'
  {
    if value[0] == '!' && |value| > 1 {
      DanglingLast(value[2..]);
    } else if value[0] != '!' {
      DanglingLast(value[1..]);
    }
  }

  /** Without escaping the search would be right for every text exactly when what was typed holds none
      of the three special characters. */
  lemma EscapingMattersExactly(needle: string)
    ensures (forall text :: Like(text, "%" + needle + "%") <==> Contains(text, needle)) <==> Plain(needle)
  {
    hide Like, EscapeLike, Contains, Plain;
    if Plain(needle) {
      PlainIsItsEscape(needle);
      ThreePassesAreOne(needle);
      forall text ensures Like(text, "%" + needle + "%") <==>
          Contains(text, needle) { PatternMeansContains(text, needle); }
    } else {
      WitnessDisagrees(needle);
    }
  }

  // ----- the query -----

  datatype Checkpoint = Checkpoint(resource: string, evidence: string, owner: string, state: string,
                                   releaseBlocking: bool)

  datatype Query = Query(q: string, owner: string, state: string, releaseBlocking: Option<bool>)

  /** The conditions added to the query; the two functions lower a text as Go and as the database do. */
  predicate Selected(goLower: string -> string, sqlLower: string -> string, query: Query, row: Checkpoint) {
    && (query.q != "" ==>
          var pattern := SearchPattern(goLower(query.q));
          Like(sqlLower(row.resource), pattern) || Like(sqlLower(row.evidence), pattern))
    && (query.owner != "" ==> row.owner == query.owner)
    && (query.state != "" ==> row.state == query.state)
    && (query.releaseBlocking.Some? ==> row.releaseBlocking == query.releaseBlocking.value)
  }

  /** A row is listed exactly when its resource or evidence contains the lowered search text and the
      other filters that were given hold. */
  lemma SelectedExactly(goLower: string -> string, sqlLower: string -> string, query: Query, row: Checkpoint)
    ensures Selected(goLower, sqlLower, query, row) <==>
              && (query.q == "" || Contains(sqlLower(row.resource), goLower(query.q))
                  || Contains(sqlLower(row.evidence), goLower(query.q)))
              && (query.owner == "" || query.owner == row.owner)
              && (query.state == "" || query.state == row.state)
              && (query.releaseBlocking == None || query.releaseBlocking == Some(row.releaseBlocking))
  {
    hide Like, SearchPattern, Contains;
    PatternMeansContains(sqlLower(row.resource), goLower(query.q));
    PatternMeansContains(sqlLower(row.evidence), goLower(query.q));
  }
}
