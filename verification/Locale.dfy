/** Choosing a locale from an Accept-Language header, sections 12.4.2 and 12.5.4 of RFC 9110. */
module Locale {
  import opened Basics

  /** The result of reading a floating-point number. */
  datatype Number = Malformed | NotANumber | Finite(value: real) | TooLarge

  /** Case folding and number reading are the library's. */
  datatype Library = Library(lower: string -> string, parse: string -> Number)

  /** A listed tag, its quality and its place in the header. */
  datatype Preference = Preference(tag: string, q: real, order: nat)

  // ----- text -----

  function IndexOf(text: string, c: char): (i: nat)
    ensures i <= |text| && c !in text[..i] && (i < |text| ==> text[i] == c)
  {
    if text == "" || text[0] == c then 0 else 1 + IndexOf(text[1..], c)
  }

  /** The text before and after the first '=', if there is one. */
  function CutEquals(text: string): Option<(string, string)> {
    var i := IndexOf(text, '=');
    if i == |text| then None else Some((text[..i], text[i + 1..]))
  }

  // ----- one listed tag -----

  /** Quality of a tag: unusable when a value is malformed or out of range. Not-a-number passes the
      range check, and is then not above zero. */
  datatype Quality = Invalid | NaN | Q(value: real)

  /** The effect of one parameter on the quality so far. */
  function WithParameter(lib: Library, q: Quality, parameter: string): Quality {
    match CutEquals(Trim(parameter))
    case None => q
    case Some((name, value)) =>
      if name != "q" && name != "Q" then q
      else
        match lib.parse(value)
        case Malformed => Invalid
        case TooLarge => Invalid
        case NotANumber => NaN
        case Finite(v) => if v < 0.0 || v > 1.0 then Invalid else Q(v)
  }

  /** Parameters are read in order, up to the first invalid one. */
  function QualityOf(lib: Library, q: Quality, parameters: seq<string>): Quality
    decreases |parameters|
  {
    if parameters == [] || q.Invalid? then q else QualityOf(lib, WithParameter(lib, q, parameters[0]), parameters[1..])
  }

  predicate Positive(q: Quality) { q.Q? && q.value > 0.0 }

  function PreferenceOf(lib: Library, part: string, order: nat): Option<Preference> {
    var segments := Split(part, ';');
    var tag := Trim(segments[0]);
    var q := QualityOf(lib, Q(1.0), segments[1..]);
    if tag == "" || !Positive(q) then None else Some(Preference(tag, q.value, order))
  }

  /** The usable tags of a header in the order they are listed. */
  function Listed(lib: Library, parts: seq<string>): seq<Preference> {
    if parts == [] then []
    else
      var n := |parts| - 1;
      var front := Listed(lib, parts[..n]);
      match PreferenceOf(lib, parts[n], n)
      case None => front
      case Some(preference) => front + [preference]
  }

  // ----- ranking -----

  /** Higher quality first, then the earlier place. */
  predicate Better(a: Preference, b: Preference) {
    a.q > b.q || (a.q == b.q && a.order < b.order)
  }

  predicate Ranked(list: seq<Preference>) {
    forall i, j :: 0 <= i < j < |list| ==> Better(list[i], list[j])
  }

  predicate InPlace(list: seq<Preference>) {
    forall i, j :: 0 <= i < j < |list| ==> list[i].order < list[j].order
  }

  lemma {:induction false} ListedInPlace(lib: Library, parts: seq<string>)
    ensures InPlace(Listed(lib, parts))
    ensures forall p :: p in Listed(lib, parts) ==> p.order < |parts| && p.tag != "" && 0.0 < p.q
  {
    if parts != [] { ListedInPlace(lib, parts[..|parts| - 1]); }
  }

  function Place(x: Preference, list: seq<Preference>): seq<Preference> {
    if list == [] then [x] else if Better(x, list[0]) then [x] + list else [list[0]] + Place(x, list[1..])
  }

  function Rank(list: seq<Preference>): seq<Preference> {
    if list == [] then [] else Place(list[|list| - 1], Rank(list[..|list| - 1]))
  }

  lemma {:induction false} PlaceHolds(x: Preference, list: seq<Preference>)
    ensures multiset(Place(x, list)) == multiset(list) + multiset{x}
    ensures forall p :: p in Place(x, list) <==> p == x || p in list
  {
    if list != [] {
      assert list == [list[0]] + list[1..];
      PlaceHolds(x, list[1..]);
    }
  }

  lemma {:induction false} PlaceKeeps(x: Preference, list: seq<Preference>)
    requires Ranked(list) && forall p :: p in list ==> p.order != x.order
    ensures Ranked(Place(x, list)) && multiset(Place(x, list)) == multiset(list) + multiset{x}
    ensures forall p :: p in Place(x, list) <==> p == x || p in list
  {
    PlaceHolds(x, list);
    if list != [] {
      if Better(x, list[0]) {
        HeadRanks(x, list);
      } else {
        PlaceKeeps(x, list[1..]);
        PlaceHolds(x, list[1..]);
        HeadRanks(list[0], Place(x, list[1..]));
      }
    }
  }

  lemma HeadRanks(head: Preference, list: seq<Preference>)
    requires Ranked(list) && forall p :: p in list ==> Better(head, p)
    ensures Ranked([head] + list)
  {
  }

  lemma {:induction false} RankKeeps(list: seq<Preference>)
    requires InPlace(list)
    ensures Ranked(Rank(list)) && multiset(Rank(list)) == multiset(list)
    ensures forall p :: p in Rank(list) <==> p in list
  {
    if list != [] {
      var n := |list| - 1;
      RankKeeps(list[..n]);
      assert list == list[..n] + [list[n]];
      PlaceKeeps(list[n], Rank(list[..n]));
    }
  }

  /** The quality that the parameters give, read up to the first invalid one. */
  method ReadQuality(lib: Library, parameters: seq<string>) returns (q: Quality)
    ensures q == QualityOf(lib, Q(1.0), parameters)
  {
    hide WithParameter;
    var rest := parameters;
    q := Q(1.0);
    while rest != [] && !q.Invalid?
      invariant QualityOf(lib, q, rest) == QualityOf(lib, Q(1.0), parameters)
      decreases |rest|
    {
      q, rest := WithParameter(lib, q, rest[0]), rest[1..];
    }
  }

  /** The usable preferences of a header, best first. */
  method Parse(lib: Library, header: string) returns (ranked: seq<Preference>)
    ensures Ranked(ranked) && multiset(ranked) == multiset(Listed(lib, Split(header, ',')))
  {
    hide QualityOf, Better, Split, Trim;
    var parts := Split(header, ',');
    var result: seq<Preference> := [];
    for index := 0 to |parts|
      invariant result == Listed(lib, parts[..index])
    {
      assert parts[..index + 1][..index] == parts[..index];
      var segments := Split(parts[index], ';');
      var tag := Trim(segments[0]);
      if tag == "" { continue; }
      var q := ReadQuality(lib, segments[1..]);
      if Positive(q) { result := result + [Preference(tag, q.value, index)]; }
    }
    assert parts[..|parts|] == parts;
    ListedInPlace(lib, parts);
    RankKeeps(result);
    ranked := Rank(result);
  }

  // ----- the choice -----

  function Canonical(lib: Library, raw: string): string {
    var tag := lib.lower(Trim(raw));
    if tag == "zh" || tag == "zh-cn" || tag == "zh-hans" || tag == "zh-sg" then "zh-CN"
    else if tag == "en" || "en-" <= tag then "en-US"
    else raw
  }

  /** Later spellings of one locale replace earlier ones. */
  function Available(lib: Library, enabled: seq<string>): map<string, string> {
    if enabled == [] then map[]
    else
      var last := enabled[|enabled| - 1];
      Available(lib, enabled[..|enabled| - 1])[lib.lower(last) := last]
  }

  function Fallback(lib: Library, enabled: seq<string>, defaultLocale: string): string {
    if lib.lower(defaultLocale) !in Available(lib, enabled) && enabled != [] then enabled[0] else defaultLocale
  }

  /** What a preference selects, if anything; an asterisk selects the default. */
  function Selects(lib: Library, available: map<string, string>, fallback: string, p: Preference): Option<string> {
    if p.tag == "*" then Some(fallback)
    else
      var key := lib.lower(Canonical(lib, p.tag));
      if key in available then Some(available[key]) else None
  }

  /** One pass over the list: the best preference that selects something. */
  function Best(
    lib: Library, available: map<string, string>, fallback: string, list: seq<Preference>): (best: Option<Preference>)
    ensures best.Some? ==> Selects(lib, available, fallback, best.value).Some?
  {
    if list == [] then None
    else
      var last := list[|list| - 1];
      var front := Best(lib, available, fallback, list[..|list| - 1]);
      if Selects(lib, available, fallback, last).None? then front
      else if front.None? || Better(last, front.value) then Some(last)
      else front
  }

  function Negotiated(lib: Library, header: string, enabled: seq<string>, defaultLocale: string): string {
    var available, fallback := Available(lib, enabled), Fallback(lib, enabled, defaultLocale);
    match Best(lib, available, fallback, Listed(lib, Split(header, ',')))
    case None => fallback
    case Some(p) => Selects(lib, available, fallback, p).value
  }

  /** The best usable preference is usable, listed, and no usable one is better. */
  lemma {:induction false} BestIsBest(
    lib: Library, available: map<string, string>, fallback: string, list: seq<Preference>)
    ensures var best := Best(lib, available, fallback, list);
            && (best.None? <==> forall p :: p in list ==> Selects(lib, available, fallback, p).None?)
            && (best.Some? ==> best.value in list && Selects(lib, available, fallback, best.value).Some?
                               && forall p :: p in list && Selects(lib, available, fallback, p).Some? ==>
                                   !Better(p, best.value))
  {
    hide Selects;
    if list != [] {
      var n := |list| - 1;
      BestIsBest(lib, available, fallback, list[..n]);
      assert list == list[..n] + [list[n]];
    }
  }

  /** Scanning a ranked arrangement finds what the one-pass search finds. */
  lemma FirstOfRankedIsBest(
    lib: Library, available: map<string, string>, fallback: string, ranked: seq<Preference>, list: seq<Preference>,
    k: nat)
    requires Ranked(ranked) && multiset(ranked) == multiset(list) && k <= |ranked|
    requires forall i :: 0 <= i < k ==> Selects(lib, available, fallback, ranked[i]).None?
    ensures k == |ranked| ==> Best(lib, available, fallback, list).None?
    ensures k < |ranked| && Selects(lib, available, fallback, ranked[k]).Some? ==>
              Best(lib, available, fallback, list) == Some(ranked[k])
  {
    hide Selects, Better;
    BestIsBest(lib, available, fallback, list);
    forall p ensures p in list <==> p in ranked {
      assert p in list <==> p in multiset(list);
      assert p in ranked <==> p in multiset(ranked);
    }
    var best := Best(lib, available, fallback, list);
    if best.Some? {
      var j :| 0 <= j < |ranked| && ranked[j] == best.value;
      if k < |ranked| && Selects(lib, available, fallback, ranked[k]).Some? {
        assert ranked[k] in list;
      }
    } else if k < |ranked| {
      assert ranked[k] in list;
    }
  }

  method Negotiate(lib: Library, header: string, enabled: seq<string>, defaultLocale: string) returns (chosen: string)
    ensures chosen == Negotiated(lib, header, enabled, defaultLocale)
  {
    hide Best, Selects, Listed, Ranked;
    var available: map<string, string> := map[];
    for k := 0 to |enabled|
      invariant available == Available(lib, enabled[..k])
    {
      assert enabled[..k + 1][..k] == enabled[..k];
      available := available[lib.lower(enabled[k]) := enabled[k]];
    }
    assert enabled[..|enabled|] == enabled;
    var fallback := defaultLocale;
    if lib.lower(defaultLocale) !in available && |enabled| > 0 { fallback := enabled[0]; }
    var preferences := Parse(lib, header);
    ghost var list := Listed(lib, Split(header, ','));
    for k := 0 to |preferences|
      invariant forall i :: 0 <= i < k ==> Selects(lib, available, fallback, preferences[i]).None?
    {
      FirstOfRankedIsBest(lib, available, fallback, preferences, list, k);
      SelectsMeans(lib, available, fallback, preferences[k]);
      if preferences[k].tag == "*" { return fallback; }
      var canonical := Canonical(lib, preferences[k].tag);
      if lib.lower(canonical) in available { return available[lib.lower(canonical)]; }
    }
    FirstOfRankedIsBest(lib, available, fallback, preferences, list, |preferences|);
    return fallback;
  }

  lemma SelectsMeans(lib: Library, available: map<string, string>, fallback: string, p: Preference)
    ensures Selects(lib, available, fallback, p)
         == if p.tag == "*" then Some(fallback)
            else if lib.lower(Canonical(lib, p.tag)) in available then Some(available[lib.lower(Canonical(lib, p.tag))])
            else None
  {
  }

  // ----- what a shop can rely on -----

  lemma {:induction false} AvailableHolds(lib: Library, enabled: seq<string>)
    ensures forall key :: key in Available(lib, enabled) ==>
              Available(lib, enabled)[key] in enabled && lib.lower(Available(lib, enabled)[key]) == key
    ensures forall e :: e in enabled ==> lib.lower(e) in Available(lib, enabled)
  {
    if enabled != [] {
      AvailableHolds(lib, enabled[..|enabled| - 1]);
      assert enabled == enabled[..|enabled| - 1] + [enabled[|enabled| - 1]];
    }
  }

  /** Whatever the header says, the answer is an enabled locale or the fallback. */
  lemma AnswerIsEnabledOrFallback(lib: Library, header: string, enabled: seq<string>, defaultLocale: string)
    ensures var answer := Negotiated(lib, header, enabled, defaultLocale);
            answer in enabled || answer == Fallback(lib, enabled, defaultLocale)
  {
    AvailableHolds(lib, enabled);
    BestIsBest(lib, Available(lib, enabled), Fallback(lib, enabled, defaultLocale), Listed(lib, Split(header, ',')));
  }

  /** The answer is enabled for every header exactly when the default is spelled as an enabled locale,
      or no enabled locale matches it but for case and there is one to take its place. */
  lemma AlwaysEnabledExactlyWhen(lib: Library, enabled: seq<string>, defaultLocale: string)
    ensures (forall header :: Negotiated(lib, header, enabled, defaultLocale) in enabled) <==>
              || defaultLocale in enabled
              || (enabled != [] && forall e :: e in enabled ==> lib.lower(e) != lib.lower(defaultLocale))
  {
    hide Negotiated, Available;
    AvailableHolds(lib, enabled);
    EmptyHeader(lib, enabled, defaultLocale);
    forall header ensures Negotiated(lib, header, enabled, defaultLocale) in enabled
                          || Negotiated(lib, header, enabled, defaultLocale) == Fallback(lib, enabled, defaultLocale) {
      AnswerIsEnabledOrFallback(lib, header, enabled, defaultLocale);
    }
    assert Negotiated(lib, "", enabled, defaultLocale) == Fallback(lib, enabled, defaultLocale);
    assert lib.lower(defaultLocale) in Available(lib, enabled) <==>
        exists e :: e in enabled && lib.lower(e) == lib.lower(defaultLocale);
  }

  lemma EmptyHeader(lib: Library, enabled: seq<string>, defaultLocale: string)
    ensures Negotiated(lib, "", enabled, defaultLocale) == Fallback(lib, enabled, defaultLocale)
  {
    assert Split("", ',') == [""] && Split("", ';') == [""];
    assert PreferenceOf(lib, "", 0).None?;
    assert [""][..0] == [];
    assert Listed(lib, [""]) == [];
  }

  /** A default that differs from an enabled locale by case alone is answered as it is spelled. */
  lemma SpellingCounterexample(lib: Library)
    requires lib.lower("en-US") == lib.lower("en-us")
    ensures Negotiated(lib, "", ["en-us"], "en-US") == "en-US" && "en-US" !in ["en-us"]
  {
    EmptyHeader(lib, ["en-us"], "en-US");
    AvailableHolds(lib, ["en-us"]);
    assert "en-us" in ["en-us"];
    assert "en-US"[3] == 'U' && "en-us"[3] == 'u';
  }

  /** A tag whose quality is zero, malformed, out of range or not a number plays no part. */
  lemma UnusableTagsAreIgnored(lib: Library, parts: seq<string>, order: nat)
    requires order < |parts| && !Positive(QualityOf(lib, Q(1.0), Split(parts[order], ';')[1..]))
    ensures forall p :: p in Listed(lib, parts) ==> p.order != order
  {
    OnlyPositive(lib, parts, order);
  }

  lemma {:induction false} OnlyPositive(lib: Library, parts: seq<string>, order: nat)
    requires order < |parts| && PreferenceOf(lib, parts[order], order).None?
    ensures forall p :: p in Listed(lib, parts) ==> p.order != order
  {
    var n := |parts| - 1;
    if order < n {
      OnlyPositive(lib, parts[..n], order);
    } else {
      ListedInPlace(lib, parts[..n]);
    }
  }

  // ----- the choice in terms of the header's text -----

  /** The parameter gives this text as the quality. */
  predicate SetsQ(parameter: string, value: string) {
    Trim(parameter) == "q=" + value || Trim(parameter) == "Q=" + value
  }

  /** A number from zero to one; what is not a number is not out of range either. */
  predicate InRange(number: Number) {
    number.NotANumber? || (number.Finite? && 0.0 <= number.value <= 1.0)
  }

  ghost predicate AllInRange(lib: Library, parameters: seq<string>) {
    forall k, value :: 0 <= k < |parameters| && SetsQ(parameters[k], value) ==> InRange(lib.parse(value))
  }

  ghost predicate NoneSetsQ(parameters: seq<string>) {
    forall k, value :: 0 <= k < |parameters| ==> !SetsQ(parameters[k], value)
  }

  /** The last parameter that gives a quality gives this one. */
  ghost predicate LastSets(lib: Library, parameters: seq<string>, q: real) {
    exists k, value ::
      0 <= k < |parameters| && SetsQ(parameters[k], value) && lib.parse(value) == Finite(q)
      && NoneSetsQ(parameters[k + 1..])
  }

  /** No quality among the parameters is malformed or out of range, and the last one, or one if there is none,
      is this positive number. */
  ghost predicate HasQuality(lib: Library, parameters: seq<string>, q: real) {
    q > 0.0 && AllInRange(lib, parameters) && (LastSets(lib, parameters, q) || (NoneSetsQ(parameters) && q == 1.0))
  }

  lemma CutMeans(text: string, name: string, value: string)
    requires '=' !in name
    ensures CutEquals(text) == Some((name, value)) <==> text == name + "=" + value
  {
    var i := IndexOf(text, '=');
    if text == name + "=" + value {
      assert text[|name|] == '=';
      assert forall k :: 0 <= k < i ==> text[k] in text[..i];
      assert forall k :: 0 <= k < |name| ==> text[k] in name;
      assert text[..i] == name && text[i + 1..] == value;
    } else if i < |text| {
      assert text == text[..i] + "=" + text[i + 1..];
    }
  }

  /** A parameter sets the quality, or leaves it as it was. */
  lemma ParameterMeans(lib: Library, q: Quality, parameter: string)
    ensures (forall value :: !SetsQ(parameter, value)) ==> WithParameter(lib, q, parameter) == q
    ensures forall value :: SetsQ(parameter, value) ==>
              && (WithParameter(lib, q, parameter).Invalid? <==> !InRange(lib.parse(value)))
              && forall r :: WithParameter(lib, q, parameter) == Q(r) <==>
                   lib.parse(value) == Finite(r) && 0.0 <= r <= 1.0
  {
    hide IndexOf, Trim;
    var text := Trim(parameter);
    forall value
      ensures SetsQ(parameter, value) <==> CutEquals(text) in [Some(("q", value)), Some(("Q", value))]
    {
      CutMeans(text, "q", value);
      CutMeans(text, "Q", value);
    }
  }

  lemma {:induction false} QualityMeans(lib: Library, first: Quality, parameters: seq<string>, q: real)
    requires !first.Invalid?
    ensures QualityOf(lib, first, parameters) == Q(q) <==>
              AllInRange(lib, parameters)
              && (LastSets(lib, parameters, q) || (NoneSetsQ(parameters) && first == Q(q)))
    decreases |parameters|
  {
    hide SetsQ, WithParameter;
    if parameters != [] {
      var next, rest := WithParameter(lib, first, parameters[0]), parameters[1..];
      ParameterMeans(lib, first, parameters[0]);
      ParametersSplit(lib, parameters, q);
      if !next.Invalid? { QualityMeans(lib, next, rest, q); }
      if value :| SetsQ(parameters[0], value) {}
    }
  }

  lemma ParametersSplit(lib: Library, parameters: seq<string>, q: real)
    requires parameters != []
    ensures var head, rest := parameters[0], parameters[1..];
            && (AllInRange(lib, parameters) <==>
                (forall value :: SetsQ(head, value) ==> InRange(lib.parse(value))) && AllInRange(lib, rest))
            && (NoneSetsQ(parameters) <==> (forall value :: !SetsQ(head, value)) && NoneSetsQ(rest))
            && (LastSets(lib, parameters, q) <==>
                || LastSets(lib, rest, q)
                || ((exists value :: SetsQ(head, value) && lib.parse(value) == Finite(q)) && NoneSetsQ(rest)))
  {
    hide SetsQ, InRange;
    var head, rest := parameters[0], parameters[1..];
    assert forall k :: 0 <= k < |rest| ==> rest[k] == parameters[k + 1];
    if AllInRange(lib, rest) && forall value :: SetsQ(head, value) ==> InRange(lib.parse(value)) {
      forall k, value | 0 <= k < |parameters| && SetsQ(parameters[k], value) ensures InRange(lib.parse(value)) {
        if k > 0 { assert rest[k - 1] == parameters[k]; }
      }
    }
    if NoneSetsQ(rest) && forall value :: !SetsQ(head, value) {
      forall k, value | 0 <= k < |parameters| ensures !SetsQ(parameters[k], value) {
        if k > 0 { assert rest[k - 1] == parameters[k]; }
      }
    }
    if LastSets(lib, parameters, q) {
      var k, value :|
        0 <= k < |parameters| && SetsQ(parameters[k], value) && lib.parse(value) == Finite(q)
        && NoneSetsQ(parameters[k + 1..]);
      if k > 0 { assert rest[k - 1] == parameters[k] && rest[k - 1 + 1..] == parameters[k + 1..]; }
    }
    if LastSets(lib, rest, q) {
      var k, value :|
        0 <= k < |rest| && SetsQ(rest[k], value) && lib.parse(value) == Finite(q) && NoneSetsQ(rest[k + 1..]);
      assert parameters[k + 1] == rest[k] && parameters[k + 1 + 1..] == rest[k + 1..];
    }
  }

  /** The i-th tag of the header, with its quality; only tags with a positive quality count. */
  ghost predicate Offers(lib: Library, parts: seq<string>, i: nat, tag: string, q: real) {
    && i < |parts| && tag != ""
    && var segments := Split(parts[i], ';'); tag == Trim(segments[0]) && HasQuality(lib, segments[1..], q)
  }

  /** What is answered when nothing is picked: the default, unless no enabled locale is called so and there is
      a first one to take its place. */
  ghost predicate IsDefault(lib: Library, enabled: seq<string>, defaultLocale: string, answer: string) {
    if enabled != [] && forall e :: e in enabled ==> lib.lower(e) != lib.lower(defaultLocale)
    then answer == enabled[0] else answer == defaultLocale
  }

  /** The tag stands for the locale of this name, letter case aside: four tags for Chinese, and all that begin
      like English. */
  predicate StandsFor(lib: Library, tag: string, name: string) {
    var text := lib.lower(Trim(tag));
    if text in ["zh", "zh-cn", "zh-hans", "zh-sg"] then name == lib.lower("zh-CN")
    else if text == "en" || (|text| >= 3 && text[..3] == "en-") then name == lib.lower("en-US")
    else name == lib.lower(tag)
  }

  /** What a tag picks: the default for an asterisk, else the last enabled spelling of its locale. */
  ghost predicate Picks(lib: Library, enabled: seq<string>, defaultLocale: string, tag: string, answer: string) {
    if tag == "*" then IsDefault(lib, enabled, defaultLocale, answer)
    else
      exists i :: 0 <= i < |enabled| && answer == enabled[i] && StandsFor(lib, tag, lib.lower(enabled[i]))
        && forall j :: i < j < |enabled| ==> lib.lower(enabled[j]) != lib.lower(enabled[i])
  }

  ghost predicate CanPick(lib: Library, enabled: seq<string>, defaultLocale: string, tag: string) {
    exists answer :: Picks(lib, enabled, defaultLocale, tag, answer)
  }

  /** The tag at i picks something, and no other one that does has a higher quality, or the same one earlier. */
  ghost predicate IsChosen(
    lib: Library, parts: seq<string>, enabled: seq<string>, defaultLocale: string, i: nat, tag: string, q: real)
  {
    && Offers(lib, parts, i, tag, q) && CanPick(lib, enabled, defaultLocale, tag)
    && forall j: nat, other, r :: Offers(lib, parts, j, other, r) && CanPick(lib, enabled, defaultLocale, other) ==>
         r < q || (r == q && i <= j)
  }

  /** The chosen tag decides; the default is answered when no tag picks anything. */
  ghost predicate Answers(lib: Library, header: string, enabled: seq<string>, defaultLocale: string, answer: string) {
    var parts := Split(header, ',');
    || (exists i: nat, tag, q ::
          IsChosen(lib, parts, enabled, defaultLocale, i, tag, q) && Picks(lib, enabled, defaultLocale, tag, answer))
    || (&& (forall j: nat, other, r ::
              Offers(lib, parts, j, other, r) ==> !CanPick(lib, enabled, defaultLocale, other))
        && IsDefault(lib, enabled, defaultLocale, answer))
  }

  lemma PreferenceMeans(lib: Library, parts: seq<string>, order: nat, tag: string, q: real)
    requires order < |parts|
    ensures PreferenceOf(lib, parts[order], order) == Some(Preference(tag, q, order)) <==>
              Offers(lib, parts, order, tag, q)
  {
    QualityMeans(lib, Q(1.0), Split(parts[order], ';')[1..], q);
    hide QualityOf, AllInRange, LastSets, NoneSetsQ, Trim, Split;
  }

  lemma {:induction false} ListedMeans(lib: Library, parts: seq<string>, p: Preference)
    ensures p in Listed(lib, parts) <==>
              0 <= p.order < |parts| && PreferenceOf(lib, parts[p.order], p.order) == Some(p)
  {
    hide PreferenceOf;
    if parts != [] {
      var n := |parts| - 1;
      ListedMeans(lib, parts[..n], p);
      PreferencePlace(lib, parts[n], n);
    }
  }

  lemma PreferencePlace(lib: Library, part: string, order: nat)
    ensures PreferenceOf(lib, part, order).Some? ==> PreferenceOf(lib, part, order).value.order == order
  {
  }

  lemma ListedOffers(lib: Library, parts: seq<string>)
    ensures forall p :: p in Listed(lib, parts) ==> 0 <= p.order && Offers(lib, parts, p.order, p.tag, p.q)
    ensures forall i: nat, tag, q :: Offers(lib, parts, i, tag, q) ==> Preference(tag, q, i) in Listed(lib, parts)
  {
    hide Listed, PreferenceOf, Offers;
    forall p | p in Listed(lib, parts) ensures 0 <= p.order && Offers(lib, parts, p.order, p.tag, p.q) {
      ListedMeans(lib, parts, p);
      PreferenceMeans(lib, parts, p.order, p.tag, p.q);
    }
    forall i: nat, tag, q | Offers(lib, parts, i, tag, q) ensures Preference(tag, q, i) in Listed(lib, parts) {
      OfferedWithin(lib, parts, i, tag, q);
      PreferenceMeans(lib, parts, i, tag, q);
      ListedMeans(lib, parts, Preference(tag, q, i));
    }
  }

  lemma OfferedWithin(lib: Library, parts: seq<string>, i: nat, tag: string, q: real)
    requires Offers(lib, parts, i, tag, q)
    ensures i < |parts|
  {
  }

  lemma {:induction false} AvailableMeans(lib: Library, enabled: seq<string>, key: string)
    ensures key in Available(lib, enabled) <==> exists e :: e in enabled && lib.lower(e) == key
    ensures key in Available(lib, enabled) ==>
              exists i :: 0 <= i < |enabled| && Available(lib, enabled)[key] == enabled[i]
                && lib.lower(enabled[i]) == key && forall j :: i < j < |enabled| ==> lib.lower(enabled[j]) != key
  {
    if enabled != [] {
      var n := |enabled| - 1;
      AvailableMeans(lib, enabled[..n], key);
      assert enabled == enabled[..n] + [enabled[n]];
      if lib.lower(enabled[n]) == key {
        assert Available(lib, enabled)[key] == enabled[n];
      } else if key in Available(lib, enabled) {
        var i :| 0 <= i < n && Available(lib, enabled[..n])[key] == enabled[..n][i]
                 && lib.lower(enabled[..n][i]) == key && forall j :: i < j < n ==> lib.lower(enabled[..n][j]) != key;
        assert Available(lib, enabled)[key] == enabled[i];
        assert forall j :: i < j < n ==> enabled[..n][j] == enabled[j];
      }
    }
  }

  lemma FallbackMeans(lib: Library, enabled: seq<string>, defaultLocale: string, answer: string)
    ensures answer == Fallback(lib, enabled, defaultLocale) <==> IsDefault(lib, enabled, defaultLocale, answer)
  {
    hide Available;
    AvailableMeans(lib, enabled, lib.lower(defaultLocale));
  }

  lemma CanonicalMeans(lib: Library, tag: string, name: string)
    ensures name == lib.lower(Canonical(lib, tag)) <==> StandsFor(lib, tag, name)
  {
    hide Trim;
    var text := lib.lower(Trim(tag));
    assert "en-" <= text <==> |text| >= 3 && text[..3] == "en-";
  }

  lemma SelectsWhatIsPicked(lib: Library, enabled: seq<string>, defaultLocale: string, p: Preference, answer: string)
    ensures Selects(lib, Available(lib, enabled), Fallback(lib, enabled, defaultLocale), p) == Some(answer) <==>
              Picks(lib, enabled, defaultLocale, p.tag, answer)
  {
    hide Available, Canonical, StandsFor, IsDefault, Fallback;
    FallbackMeans(lib, enabled, defaultLocale, answer);
    var key := lib.lower(Canonical(lib, p.tag));
    AvailableMeans(lib, enabled, key);
    forall name ensures name == key <==> StandsFor(lib, p.tag, name) { CanonicalMeans(lib, p.tag, name); }
    if p.tag != "*" && Picks(lib, enabled, defaultLocale, p.tag, answer) {
      var i :| 0 <= i < |enabled| && answer == enabled[i] && StandsFor(lib, p.tag, lib.lower(enabled[i]))
        && forall j :: i < j < |enabled| ==> lib.lower(enabled[j]) != lib.lower(enabled[i]);
      assert lib.lower(enabled[i]) == key && enabled[i] in enabled;
    }
  }

  lemma SelectsExactly(lib: Library, enabled: seq<string>, defaultLocale: string, p: Preference)
    ensures Selects(lib, Available(lib, enabled), Fallback(lib, enabled, defaultLocale), p).Some? <==>
              CanPick(lib, enabled, defaultLocale, p.tag)
  {
    hide Selects, Picks;
    var selected := Selects(lib, Available(lib, enabled), Fallback(lib, enabled, defaultLocale), p);
    if selected.Some? { SelectsWhatIsPicked(lib, enabled, defaultLocale, p, selected.value); }
    if CanPick(lib, enabled, defaultLocale, p.tag) {
      var answer :| Picks(lib, enabled, defaultLocale, p.tag, answer);
      SelectsWhatIsPicked(lib, enabled, defaultLocale, p, answer);
    }
  }

  /** Read off the text of the header: the answer is what the tag of the highest positive quality picks, the
      earliest of those of equal quality, among the tags that pick anything, and the default when none does. */
  lemma NegotiatedMeans(lib: Library, header: string, enabled: seq<string>, defaultLocale: string, answer: string)
    ensures answer == Negotiated(lib, header, enabled, defaultLocale) <==>
              Answers(lib, header, enabled, defaultLocale, answer)
  {
    hide Selects, Picks, Offers, CanPick, Listed, Available, Fallback, IsDefault, Best;
    var available, fallback := Available(lib, enabled), Fallback(lib, enabled, defaultLocale);
    var parts := Split(header, ',');
    var list := Listed(lib, parts);
    ListedOffers(lib, parts);
    BestIsBest(lib, available, fallback, list);
    FallbackMeans(lib, enabled, defaultLocale, answer);
    forall p ensures Selects(lib, available, fallback, p).Some? <==> CanPick(lib, enabled, defaultLocale, p.tag) {
      SelectsExactly(lib, enabled, defaultLocale, p);
    }
    var best := Best(lib, available, fallback, list);
    if best.None? {
      forall j: nat, other, r | Offers(lib, parts, j, other, r) ensures !CanPick(lib, enabled, defaultLocale, other) {
        assert Preference(other, r, j) in list;
      }
    } else {
      BestIsChosen(lib, parts, enabled, defaultLocale, best.value);
      SelectsWhatIsPicked(lib, enabled, defaultLocale, best.value, answer);
      ChosenIsUnique(lib, parts, enabled, defaultLocale, best.value.order, best.value.tag, best.value.q);
    }
  }

  lemma BestIsChosen(lib: Library, parts: seq<string>, enabled: seq<string>, defaultLocale: string, p: Preference)
    requires 0 <= p.order && Offers(lib, parts, p.order, p.tag, p.q) && CanPick(lib, enabled, defaultLocale, p.tag)
    requires forall r: Preference :: r in Listed(lib, parts) && CanPick(lib, enabled, defaultLocale, r.tag) ==>
        !Better(r, p)
    ensures IsChosen(lib, parts, enabled, defaultLocale, p.order, p.tag, p.q)
  {
    hide Offers, CanPick, Listed;
    ListedOffers(lib, parts);
    forall j: nat, other, r | Offers(lib, parts, j, other, r) && CanPick(lib, enabled, defaultLocale, other)
      ensures r < p.q || (r == p.q && p.order <= j)
    {
      assert Preference(other, r, j) in Listed(lib, parts);
    }
  }

  lemma ChosenIsUnique(
    lib: Library, parts: seq<string>, enabled: seq<string>, defaultLocale: string, i: nat, tag: string, q: real)
    requires IsChosen(lib, parts, enabled, defaultLocale, i, tag, q)
    ensures forall j: nat, other, r :: IsChosen(lib, parts, enabled, defaultLocale, j, other, r) ==> other == tag
  {
    hide HasQuality, CanPick, Split, Trim;
  }
}
