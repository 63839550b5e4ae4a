/** Small datatypes and string facts shared by the models. */
module Basics {

  datatype Option<+T> = None | Some(value: T)

  datatype Result<+T, +E> = Ok(value: T) | Err(error: E)

  /** The white space that Go's unicode.IsSpace recognises. */
  predicate IsSpace(c: char) {
    || c == ' ' || c == '\t' || c == '\n' || c == '\r'
    || c == '\U{0B}' || c == '\U{0C}' || c == '\U{85}' || c == '\U{A0}' || c == '\U{1680}'
    || '\U{2000}' <= c <= '\U{200A}'
    || c == '\U{2028}' || c == '\U{2029}' || c == '\U{202F}' || c == '\U{205F}' || c == '\U{3000}'
  }

  /** Whether trimming white space off both ends leaves the text as it is. */
  predicate IsTrimmed(text: string) {
    text != "" ==> !IsSpace(text[0]) && !IsSpace(text[|text| - 1])
  }

  // ----- trimming, as strings.TrimSpace -----

  function TrimLeft(text: string): (rest: string)
    ensures |rest| <= |text|
  {
    if text != "" && IsSpace(text[0]) then TrimLeft(text[1..]) else text
  }

  function TrimRight(text: string): string {
    if text != "" && IsSpace(text[|text| - 1]) then TrimRight(text[..|text| - 1]) else text
  }

  function Trim(text: string): string { TrimRight(TrimLeft(text)) }

  /** The white space, by code point. */
  lemma SpacesByCode(c: char)
    ensures IsSpace(c) <==>
              || 9 <= c as int <= 13 || c as int in {32, 133, 160, 5760, 8232, 8233, 8239, 8287, 12288}
              || 8192 <= c as int <= 8202
  {
  }

  lemma {:induction false} TrimLeftMeans(text: string)
    ensures var n := |text| - |TrimLeft(text)|;
            && TrimLeft(text) == text[n..] && (forall k :: 0 <= k < n ==> IsSpace(text[k]))
            && (TrimLeft(text) != "" ==> !IsSpace(TrimLeft(text)[0]))
  {
    hide IsSpace;
    if text != "" && IsSpace(text[0]) {
      TrimLeftMeans(text[1..]);
      var n := |text| - |TrimLeft(text)|;
      assert text[1..][n - 1..] == text[n..];
      forall k | 0 <= k < n ensures IsSpace(text[k]) { if k > 0 { assert text[1..][k - 1] == text[k]; } }
    }
  }

  lemma {:induction false} TrimRightMeans(text: string)
    ensures var n := |TrimRight(text)|;
            && n <= |text| && TrimRight(text) == text[..n] && (forall k :: n <= k < |text| ==> IsSpace(text[k]))
            && (n > 0 ==> !IsSpace(text[n - 1]))
  {
    hide IsSpace;
    if text != "" && IsSpace(text[|text| - 1]) {
      TrimRightMeans(text[..|text| - 1]);
    }
  }

  /** What is trimmed off is white space, and what is left has none at its ends; so a text is trimmed
      exactly if trimming leaves it. */
  lemma TrimMeans(text: string)
    ensures IsTrimmed(Trim(text)) && (Trim(text) == text <==> IsTrimmed(text))
    ensures exists i, j :: 0 <= i <= j <= |text| && Trim(text) == text[i..j]
              && (forall k :: 0 <= k < i || j <= k < |text| ==> IsSpace(text[k]))
  {
    hide IsSpace;
    var left := TrimLeft(text);
    TrimLeftMeans(text);
    TrimRightMeans(left);
    var i, n := |text| - |left|, |TrimRight(left)|;
    assert Trim(text) == text[i..i + n];
    forall k | 0 <= k < i || i + n <= k < |text| ensures IsSpace(text[k]) {
      if k >= i { assert left[k - i] == text[k]; }
    }
  }

  // ----- splitting, as strings.Split -----

  /** The pieces of a text that starts with `c`, given the pieces of the rest. */
  function Grow(c: char, separator: char, rest: seq<string>): (pieces: seq<string>)
    requires rest != []
    ensures pieces != []
  {
    if c == separator then [""] + rest else [[c] + rest[0]] + rest[1..]
  }

  /** The pieces between separators; always at least one. */
  function Split(text: string, separator: char): (pieces: seq<string>)
    ensures pieces != []
  {
    if text == "" then [""] else Grow(text[0], separator, Split(text[1..], separator))
  }

  /** The pieces with the separator between them again. */
  function Join(pieces: seq<string>, separator: char): string {
    if pieces == [] then ""
    else if |pieces| == 1 then pieces[0]
    else pieces[0] + [separator] + Join(pieces[1..], separator)
  }

  /** No piece holds a separator, and with separators between them the pieces are the text. */
  lemma {:induction false} SplitMeans(text: string, separator: char)
    ensures Join(Split(text, separator), separator) == text
    ensures forall i :: 0 <= i < |Split(text, separator)| ==> separator !in Split(text, separator)[i]
  {
    if text != "" {
      SplitMeans(text[1..], separator);
      var rest := Split(text[1..], separator);
      assert text == [text[0]] + text[1..];
      if text[0] == separator {
        assert ([""] + rest)[1..] == rest;
      } else {
        assert ([[text[0]] + rest[0]] + rest[1..])[1..] == rest[1..];
      }
    }
  }

  // ----- replacing, as strings.ReplaceAll -----

  /** Every occurrence of one character replaced. */
  function ReplaceAll(text: string, c: char, put: string): string {
    if text == "" then "" else (if text[0] == c then put else [text[0]]) + ReplaceAll(text[1..], c, put)
  }
}
