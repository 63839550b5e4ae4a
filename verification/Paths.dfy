/** Lexical path cleaning and the overlap test on node-local paths. */
module Paths {
  import opened Basics

  predicate IsAbs(path: string) { path != "" && path[0] == '/' }

  /** Empty and "." pieces vanish; ".." undoes the piece before it, or nothing at the root. */
  function Walk(rooted: bool, stack: seq<string>, pieces: seq<string>): seq<string>
    decreases |pieces|
  {
    if pieces == [] then stack
    else
      var piece := pieces[0];
      var stack' :=
        if piece == "" || piece == "." then stack
        else if piece != ".." then stack + [piece]
        else if stack != [] && stack[|stack| - 1] != ".." then stack[..|stack| - 1]
        else if rooted then stack
        else stack + [piece];
      Walk(rooted, stack', pieces[1..])
  }

  function Components(path: string): seq<string> {
    Walk(IsAbs(path), [], Split(path, '/'))
  }

  function Clean(path: string): string {
    var text := (if IsAbs(path) then "/" else "") + Join(Components(path), '/');
    if text == "" then "." else text
  }

  predicate HasPrefix(text: string, prefix: string) { prefix <= text }

  predicate PathsOverlap(left: string, right: string) {
    var l, r := Clean(left), Clean(right);
    if l == r then true
    else if l == "/" || r == "/" then true
    else HasPrefix(l, r + "/") || HasPrefix(r, l + "/")
  }

  // ----- splitting and joining -----

  lemma GrowConcat(c: char, a: seq<string>, b: seq<string>)
    requires a != []
    ensures Grow(c, '/', a + b) == Grow(c, '/', a) + b
  {
  }

  lemma {:induction false} SplitConcat(a: string, b: string)
    ensures Split(a + "/" + b, '/') == Split(a, '/') + Split(b, '/')
    decreases |a|
  {
    hide Grow;
    var whole := a + "/" + b;
    if a == "" {
      assert whole[0] == '/' && whole[1..] == b;
      assert Split(whole, '/') == [""] + Split(b, '/') by { SplitSlash(whole); }
    } else {
      SplitConcat(a[1..], b);
      assert whole[0] == a[0] && whole[1..] == a[1..] + "/" + b;
      GrowConcat(a[0], Split(a[1..], '/'), Split(b, '/'));
    }
  }

  lemma SplitSlash(path: string)
    requires path != "" && path[0] == '/'
    ensures Split(path, '/') == [""] + Split(path[1..], '/')
  {
  }

  predicate Piece(piece: string) {
    piece != "" && '/' !in piece
  }

  predicate Pieces(pieces: seq<string>) {
    forall i :: 0 <= i < |pieces| ==> Piece(pieces[i])
  }

  lemma {:induction false} SplitPiece(piece: string)
    requires '/' !in piece
    ensures Split(piece, '/') == [piece]
  {
    if piece != "" {
      SplitPiece(piece[1..]);
      assert [piece[0]] + piece[1..] == piece;
    }
  }

  lemma {:induction false} SplitJoin(pieces: seq<string>)
    requires pieces != [] && Pieces(pieces)
    ensures Split(Join(pieces, '/'), '/') == pieces
  {
    SplitPiece(pieces[0]);
    if |pieces| > 1 {
      SplitJoin(pieces[1..]);
      SplitConcat(pieces[0], Join(pieces[1..], '/'));
    }
  }

  lemma {:induction false} JoinConcat(a: seq<string>, b: seq<string>)
    requires a != [] && b != []
    ensures Join(a + b, '/') == Join(a, '/') + "/" + Join(b, '/')
    decreases |a|
  {
    if |a| == 1 {
      assert (a + b)[1..] == b;
    } else {
      assert (a + b)[1..] == a[1..] + b;
      JoinConcat(a[1..], b);
    }
  }

  /** Joined pieces start with another joined list and a slash exactly when the lists extend each other. */
  lemma JoinPrefix(a: seq<string>, b: seq<string>)
    requires a != [] && b != [] && Pieces(a) && Pieces(b)
    ensures HasPrefix(Join(a, '/'), Join(b, '/') + "/") <==> b < a
    ensures Join(a, '/') == Join(b, '/') <==> a == b
  {
    SplitJoin(a);
    SplitJoin(b);
    if HasPrefix(Join(a, '/'), Join(b, '/') + "/") {
      var rest := Join(a, '/')[|Join(b, '/')| + 1..];
      assert Join(a, '/') == Join(b, '/') + "/" + rest;
      SplitConcat(Join(b, '/'), rest);
    }
    if b < a {
      JoinConcat(b, a[|b|..]);
      assert a == b + a[|b|..];
    }
  }

  // ----- cleaning -----

  lemma {:induction false} SplitHasNoSlash(path: string)
    ensures forall i :: 0 <= i < |Split(path, '/')| ==> '/' !in Split(path, '/')[i]
  {
    if path != "" { SplitHasNoSlash(path[1..]); }
  }

  /** A piece that cleaning leaves on a rooted path. */
  predicate Plain(pieces: seq<string>) {
    forall i :: 0 <= i < |pieces| ==> Piece(pieces[i]) && pieces[i] != "." && pieces[i] != ".."
  }

  lemma {:induction false} WalkIsPlain(stack: seq<string>, pieces: seq<string>)
    requires Plain(stack) && forall i :: 0 <= i < |pieces| ==> '/' !in pieces[i]
    ensures Plain(Walk(true, stack, pieces))
    decreases |pieces|
  {
    if pieces != [] {
      var piece := pieces[0];
      if piece == "" || piece == "." {
        WalkIsPlain(stack, pieces[1..]);
      } else if piece != ".." {
        WalkIsPlain(stack + [piece], pieces[1..]);
      } else if stack != [] {
        WalkIsPlain(stack[..|stack| - 1], pieces[1..]);
      } else {
        WalkIsPlain(stack, pieces[1..]);
      }
    }
  }

  lemma {:induction false} WalkKeepsPlain(stack: seq<string>, pieces: seq<string>)
    requires Plain(pieces)
    ensures Walk(true, stack, pieces) == stack + pieces
    decreases |pieces|
  {
    if pieces != [] {
      WalkKeepsPlain(stack + [pieces[0]], pieces[1..]);
      assert stack + [pieces[0]] + pieces[1..] == stack + pieces;
    }
  }

  lemma ComponentsArePlain(path: string)
    requires IsAbs(path)
    ensures Plain(Components(path)) && Pieces(Components(path))
    ensures Clean(path) == "/" + Join(Components(path), '/')
  {
    SplitHasNoSlash(path);
    WalkIsPlain([], Split(path, '/'));
  }

  lemma WalkOne(rooted: bool, stack: seq<string>, pieces: seq<string>)
    requires pieces != []
    ensures Walk(rooted, stack, pieces) == Walk(rooted, Walk(rooted, stack, [pieces[0]]), pieces[1..])
  {
    assert [pieces[0]][1..] == [];
    forall kept: seq<string> ensures Walk(rooted, kept, []) == kept {}
  }

  lemma {:induction false} WalkConcat(rooted: bool, stack: seq<string>, a: seq<string>, b: seq<string>)
    ensures Walk(rooted, stack, a + b) == Walk(rooted, Walk(rooted, stack, a), b)
    decreases |a|
  {
    if a == [] {
      assert a + b == b;
    } else {
      assert (a + b)[1..] == a[1..] + b && (a + b)[0] == a[0];
      WalkOne(rooted, stack, a);
      WalkOne(rooted, stack, a + b);
      WalkConcat(rooted, Walk(rooted, stack, [a[0]]), a[1..], b);
    }
  }

  /** What one more piece at the end of a path does to its components: an empty one or a dot nothing, two
      dots take the last one back, or stay when there is none to take back and the path is not rooted. */
  lemma OnePieceMore(path: string, piece: string)
    requires '/' !in piece && path != ""
    ensures var before, after := Components(path), Components(path + "/" + piece);
            after == if piece == "" || piece == "." then before
                     else if piece != ".." then before + [piece]
                     else if before != [] && before[|before| - 1] != ".." then before[..|before| - 1]
                     else if path[0] == '/' then before
                     else before + [".."]
  {
    SplitConcat(path, piece);
    SplitPiece(piece);
    assert (path + "/" + piece)[0] == path[0];
    WalkConcat(IsAbs(path), [], Split(path, '/'), [piece]);
    assert [piece][1..] == [];
  }

  /** The components of a path of one piece, rooted or not. */
  lemma OnePiece(piece: string)
    requires '/' !in piece
    ensures Components(piece) == if piece == "" || piece == "." then [] else [piece]
    ensures Components("/" + piece) == if piece == "" || piece == "." || piece == ".." then [] else [piece]
  {
    SplitPiece(piece);
    SplitConcat("", piece);
    assert "" + "/" + piece == "/" + piece && Split("", '/') == [""];
    assert !IsAbs(piece) by { assert piece != "" ==> piece[0] in piece; }
    var kept := if piece == "" || piece == "." then [] else [piece];
    assert Walk(false, [], [piece]) == Walk(false, kept, [piece][1..]);
    WalkOne(true, [], ["", piece]);
    assert [piece][1..] == [] && ["", piece][1..] == [piece] && [""] + [piece] == ["", piece];
    assert Walk(true, [], [""]) == Walk(true, [], [""][1..]) == [];
  }

  /** Cleaning a cleaned path changes nothing: what was normalised stays so. */
  lemma CleanIsIdempotent(path: string)
    requires IsAbs(path)
    ensures IsAbs(Clean(path)) && Components(Clean(path)) == Components(path) && Clean(Clean(path)) == Clean(path)
  {
    ComponentsArePlain(path);
    var c := Components(path);
    assert ("/" + Join(c, '/'))[1..] == Join(c, '/');
    if c != [] { SplitJoin(c); }
    assert Walk(true, [], Split(Clean(path), '/')) == Walk(true, [], Split(Join(c, '/'), '/'));
    if c == [] {
      assert Split("", '/') == [""];
      assert Walk(true, [], [""]) == Walk(true, [], []);
    } else {
      WalkKeepsPlain([], c);
    }
  }

  /** Two rooted paths overlap exactly when one lies at or below the other: the components of one
      are a prefix of the components of the other. */
  lemma OverlapIsNesting(left: string, right: string)
    requires IsAbs(left) && IsAbs(right)
    ensures PathsOverlap(left, right) <==>
              Components(left) <= Components(right) || Components(right) <= Components(left)
  {
    hide Components, Split, Join;
    ComponentsArePlain(left);
    ComponentsArePlain(right);
    var a, b := Components(left), Components(right);
    EmptyJoin(a);
    EmptyJoin(b);
    if a != [] && b != [] {
      JoinPrefix(a, b);
      JoinPrefix(b, a);
      SlashPrefix(Join(a, '/'), Join(b, '/') + "/");
      SlashPrefix(Join(b, '/'), Join(a, '/') + "/");
      assert "/" + (Join(b, '/') + "/") == "/" + Join(b, '/') + "/";
      assert "/" + (Join(a, '/') + "/") == "/" + Join(a, '/') + "/";
      assert ("/" + Join(a, '/'))[1..] == Join(a, '/') && ("/" + Join(b, '/'))[1..] == Join(b, '/');
    }
  }

  lemma SlashPrefix(text: string, prefix: string)
    ensures HasPrefix("/" + text, "/" + prefix) <==> HasPrefix(text, prefix)
  {
    if HasPrefix("/" + text, "/" + prefix) {
      assert forall i :: 0 <= i < |prefix| ==> prefix[i] == ("/" + prefix)[i + 1] && text[i] == ("/" + text)[i + 1];
    }
  }

  lemma EmptyJoin(pieces: seq<string>)
    requires Pieces(pieces)
    ensures Join(pieces, '/') == "" <==> pieces == []
    ensures "/" + Join(pieces, '/') == "/" <==> pieces == []
  {
  }
}
