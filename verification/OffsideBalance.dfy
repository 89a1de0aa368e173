/** When the markers balance (crates/psrs-syntax/src/layout.rs). Two branches break the balance: the
    truncations of the frame stack (161-169, 301-303, 394-396), which forget blocks without an end, and
    `in` (413-423), which writes an end for every frame down to its `let`. Their contributions are
    counted from the stacks they meet, and decide exactly which runs balance and which never have more
    ends than starts.
 */
module OffsideBalance {
  import opened Lists
  import opened OffsideLayout

  // ----- What the two branches meet -----

  /** The innermost frame of a kind and everything above it. */
  function FromInnermost(frames: seq<Frame>, kind: FrameKind): seq<Frame> {
    match Innermost(frames, kind)
    case None => []
    case Some(index) => frames[index..]
  }

  function NonBlocks(frames: seq<Frame>): nat {
    |frames| - Blocks(frames)
  }

  /** The frames that a closing bracket or `of` truncates. */
  function CutByCloser(frames: seq<Frame>, kind: TokenKind): seq<Frame> {
    if Closer(kind).Some? then FromInnermost(Remaining(frames, Always), Closer(kind).value) else []
  }

  /** The frames that `in` closes. */
  function ClosedByIn(frames: seq<Frame>, kind: TokenKind): seq<Frame> {
    if kind.In? then FromInnermost(frames, InBlock(LetBlock)) else []
  }

  /** The frames that `then` truncates. */
  function CutByThen(frames: seq<Frame>, kind: TokenKind): seq<Frame> {
    if kind.Then? then FromInnermost(frames, InIf) else []
  }

  // ----- The parts of one step -----

  function Kept(s: State, token: Token): seq<Frame> {
    Before(s.frames, s.crossedNewline, token)
  }

  /** All frames that a step truncates. */
  function Cut(s: State, token: Token, next: Option<TokenKind>): seq<Frame> {
    if IsProperty(s.frames, s.crossedNewline, token) then []
    else CutByCloser(Kept(s, token), token.kind) + CutByThen(OpenedPart(s, token, next).frames, token.kind)
  }

  /** The frames that a step closes as part of a `let`. */
  function LetClosed(s: State, token: Token): seq<Frame> {
    if IsProperty(s.frames, s.crossedNewline, token) then [] else ClosedByIn(Kept(s, token), token.kind)
  }

  lemma {:induction false} Parts(s: State, token: Token, next: Option<TokenKind>)
    ensures StepEffect(s, token, next)
         == Effect(LastPart(s, token, next).frames, ClosedPart(s, token, next).marks + OpenedPart(s, token, next).marks,
                   ClosedPart(s, token, next).dropped + LastPart(s, token, next).dropped,
                       ClosedPart(s, token, next).excess)
  {
  }

  // ----- What each part contributes -----

  predicate NoStarts(r: seq<Marked>) {
    r == [] || (!r[|r| - 1].Start? && NoStarts(r[..|r| - 1]))
  }

  lemma {:induction false} NoStartsJoin(a: seq<Marked>, b: seq<Marked>)
    requires NoStarts(a) && NoStarts(b)
    ensures NoStarts(a + b)
    decreases |b|
  {
    if b == [] {
      assert a + b == a;
    } else {
      var n := |b| - 1;
      assert (a + b)[..|a + b| - 1] == a + b[..n];
      NoStartsJoin(a, b[..n]);
    }
  }

  lemma {:induction false} EndsNoStarts(count: nat, at: nat)
    ensures NoStarts(Ends(count, at))
  {
    if count > 0 {
      assert Ends(count, at)[..count - 1] == Ends(count - 1, at);
      EndsNoStarts(count - 1, at);
    }
  }

  /** An effect without starts that drops the blocks of `cut` and gives the other frames of `closed`
      an end. */
  predicate Counts(e: Effect, cut: seq<Frame>, closed: seq<Frame>) {
    NoStarts(e.marks) && e.dropped == Blocks(cut) && e.excess == NonBlocks(closed)
  }

  lemma {:induction false} SameCounts(frames: seq<Frame>)
    ensures Counts(Same(frames), [], [])
  {
  }

  lemma {:induction false} CloseBlocksCounts(frames: seq<Frame>, closing: Closing, at: nat)
    ensures Counts(CloseBlocks(frames, closing, at), [], [])
  {
    EndsNoStarts(|frames| - |Remaining(frames, closing)|, at);
  }

  lemma {:induction false} TruncateCounts(frames: seq<Frame>, kind: FrameKind)
    ensures Counts(Truncate(frames, kind), FromInnermost(frames, kind), [])
  {
  }

  lemma {:induction false} CloserCounts(frames: seq<Frame>, kind: FrameKind, at: nat)
    ensures Counts(CloseThenTruncate(frames, kind, at), FromInnermost(Remaining(frames, Always), kind), [])
  {
    CloseBlocksCounts(frames, Always, at);
    TruncateCounts(Remaining(frames, Always), kind);
  }

  lemma {:induction false} LetCounts(frames: seq<Frame>, at: nat)
    ensures Counts(CloseThroughLet(frames, at), [], FromInnermost(frames, InBlock(LetBlock)))
  {
    match Innermost(frames, InBlock(LetBlock))
    case None =>
    case Some(index) => EndsNoStarts(|frames| - index, at);
  }

  lemma {:induction false} NewLineCounts(frames: seq<Frame>, token: Token, continues: bool)
    ensures Counts(NewLine(frames, token, continues), [], [])
  {
    var closed := CloseBlocks(frames, Outdented(token.indent), token.start);
    CloseBlocksCounts(frames, Outdented(token.indent), token.start);
    var marks := [Separator(token.start)];
    assert marks[..0] == [] && NoStarts(marks);
    NoStartsJoin(closed.marks, marks);
  }

  lemma {:induction false} TickCounts(frames: seq<Frame>, indent: nat, at: nat)
    ensures Counts(CloseTick(frames, indent, at), [], [])
  {
    CloseBlocksCounts(frames, Always, at);
  }

  lemma {:induction false} CommaCounts(frames: seq<Frame>, indent: nat, at: nat)
    ensures Counts(CloseComma(frames, indent, at), [], [])
  {
    CloseBlocksCounts(frames, Always, at);
  }

  lemma {:induction false} BindersCounts(frames: seq<Frame>, at: nat)
    ensures Counts(CloseBinders(frames, at), [], [])
  {
    CloseBlocksCounts(frames, OnlyDo, at);
  }

  lemma {:induction false} ElseCounts(frames: seq<Frame>, crossed: bool, indent: nat, at: nat)
    ensures Counts(CloseElse(frames, crossed, indent, at), [], [])
  {
    CloseBlocksCounts(frames, Outdented(indent), at);
    match Innermost(frames, InThen)
    case None =>
    case Some(index) => EndsNoStarts(Blocks(frames[index..]), at);
  }

  lemma {:induction false} CloseForCounts(frames: seq<Frame>, crossed: bool, token: Token, continues: bool)
    ensures Counts(CloseFor(frames, crossed, token, continues), CutByCloser(frames, token.kind),
                   ClosedByIn(frames, token.kind))
  {
    if Delimits(token.kind) {
      DelimiterCounts(frames, crossed, token, continues);
    } else if token.kind.Where? {
      WhereCounts(frames, crossed, token, continues);
    } else if token.kind.In? {
      InCounts(frames, crossed, token, continues);
    } else if token.kind.Else? {
      ElseWordCounts(frames, crossed, token, continues);
    } else if token.kind.Arrow? {
      ArrowCounts(frames, crossed, token, continues);
    } else if token.kind.Equals? {
      EqualsCounts(frames, crossed, token, continues);
    } else {
      OtherCounts(frames, crossed, token, continues);
    }
  }

  lemma {:induction false} DelimiterCounts(frames: seq<Frame>, crossed: bool, token: Token, continues: bool)
    requires Delimits(token.kind)
    ensures Counts(CloseFor(frames, crossed, token, continues), CutByCloser(frames, token.kind),
                   ClosedByIn(frames, token.kind))
  {
    var at, indent := token.start, token.indent;
    if token.kind.Backtick? { TickCounts(frames, indent, at); }
    else if token.kind.Comma? { CommaCounts(frames, indent, at); }
    else { CloserCounts(frames, Closer(token.kind).value, at); }
  }

  lemma {:induction false} WhereCounts(frames: seq<Frame>, crossed: bool, token: Token, continues: bool)
    requires token.kind.Where?
    ensures Counts(CloseFor(frames, crossed, token, continues), CutByCloser(frames, token.kind),
                   ClosedByIn(frames, token.kind))
  {
    CloseBlocksCounts(Popped(frames, TopIs(frames, InDeclarationHead)), DoOrOutdented(token.indent), token.start);
  }

  lemma {:induction false} InCounts(frames: seq<Frame>, crossed: bool, token: Token, continues: bool)
    requires token.kind.In?
    ensures Counts(CloseFor(frames, crossed, token, continues), CutByCloser(frames, token.kind),
                   ClosedByIn(frames, token.kind))
  {
    assert CloseFor(frames, crossed, token, continues) == CloseThroughLet(frames, token.start);
    LetCounts(frames, token.start);
  }

  lemma {:induction false} ElseWordCounts(frames: seq<Frame>, crossed: bool, token: Token, continues: bool)
    requires token.kind.Else?
    ensures Counts(CloseFor(frames, crossed, token, continues), CutByCloser(frames, token.kind),
                   ClosedByIn(frames, token.kind))
  {
    assert CloseFor(frames, crossed, token, continues) == CloseElse(frames, crossed, token.indent, token.start);
    ElseCounts(frames, crossed, token.indent, token.start);
  }

  lemma {:induction false} ArrowCounts(frames: seq<Frame>, crossed: bool, token: Token, continues: bool)
    requires token.kind == Arrow
    ensures Counts(CloseFor(frames, crossed, token, continues), CutByCloser(frames, token.kind),
                   ClosedByIn(frames, token.kind))
  {
    BindersCounts(frames, token.start);
  }

  lemma {:induction false} EqualsCounts(frames: seq<Frame>, crossed: bool, token: Token, continues: bool)
    requires token.kind == Equals
    ensures Counts(CloseFor(frames, crossed, token, continues), CutByCloser(frames, token.kind),
                   ClosedByIn(frames, token.kind))
  {
    BindersCounts(frames, token.start);
  }

  lemma {:induction false} OtherCounts(frames: seq<Frame>, crossed: bool, token: Token, continues: bool)
    requires !Delimits(token.kind) && !token.kind.Where? && !token.kind.In? && !token.kind.Else?
    requires !token.kind.Arrow? && !token.kind.Equals?
    ensures Counts(CloseFor(frames, crossed, token, continues), CutByCloser(frames, token.kind),
                   ClosedByIn(frames, token.kind))
  {
    if crossed { NewLineCounts(frames, token, continues); } else { SameCounts(frames); }
  }

  lemma {:induction false} OpenForCounts(frames: seq<Frame>, token: Token)
    ensures var e := OpenFor(frames, token);
            e.marks == [] && e.dropped == Blocks(CutByThen(frames, token.kind)) && e.excess == 0
  {
    if token.kind.Then? { TruncateCounts(frames, InIf); }
  }

  lemma {:induction false} BlocksAll(frames: seq<Frame>)
    ensures Blocks(frames) == 0 <==> forall f <- frames :: !f.kind.InBlock?
    ensures NonBlocks(frames) == 0 <==> forall f <- frames :: f.kind.InBlock?
  {
    if frames != [] {
      var n := |frames| - 1;
      assert frames == frames[..n] + [frames[n]];
      BlocksAll(frames[..n]);
    }
  }

  // ----- One step -----

  /** A step drops the blocks among the frames it truncates and writes too many ends for the frames
      that are no blocks among those its `in` closes: none exactly when there are none of these. */
  lemma {:induction false} StepCounts(s: State, token: Token, next: Option<TokenKind>)
    ensures var e := StepEffect(s, token, next);
            && e.dropped == Blocks(Cut(s, token, next)) && e.excess == NonBlocks(LetClosed(s, token))
            && (e.dropped == 0 <==> forall f <- Cut(s, token, next) :: !f.kind.InBlock?)
            && (e.excess == 0 <==> forall f <- LetClosed(s, token) :: f.kind.InBlock?)
  {
    Parts(s, token, next);
    PartCounts(s, token, next);
    BlocksAll(Cut(s, token, next));
    BlocksAll(LetClosed(s, token));
  }

  lemma {:induction false} PartCounts(s: State, token: Token, next: Option<TokenKind>)
    ensures var closed := ClosedPart(s, token, next);
            var started, last := OpenedPart(s, token, next), LastPart(s, token, next);
            && NoStarts(closed.marks) && closed.excess == NonBlocks(LetClosed(s, token))
            && (started.marks == [] || started.marks == [Start(token.start)]) && started.dropped == 0
            && started.excess == 0
            && last.marks == [] && last.excess == 0
            && closed.dropped + last.dropped == Blocks(Cut(s, token, next))
  {
    ClosedCounts(s, token, next);
    LastCounts(s, token, next);
    if !IsProperty(s.frames, s.crossedNewline, token) {
      BlocksJoin(CutByCloser(Kept(s, token), token.kind), CutByThen(OpenedPart(s, token, next).frames, token.kind));
    }
  }

  lemma {:induction false} ClosedCounts(s: State, token: Token, next: Option<TokenKind>)
    ensures Counts(ClosedPart(s, token, next),
                   if IsProperty(s.frames, s.crossedNewline, token) then [] else CutByCloser(Kept(s, token),
                       token.kind),
                   LetClosed(s, token))
  {
    SameCounts(Kept(s, token));
    CloseForCounts(Kept(s, token), s.crossedNewline, token, Continues(s.frames, s.crossedNewline, token, next));
  }

  lemma {:induction false} LastCounts(s: State, token: Token, next: Option<TokenKind>)
    ensures var e := LastPart(s, token, next);
            && e.marks == [] && e.excess == 0
            && e.dropped == if IsProperty(s.frames, s.crossedNewline, token) then 0
                            else Blocks(CutByThen(OpenedPart(s, token, next).frames, token.kind))
  {
    OpenForCounts(OpenedPart(s, token, next).frames, token);
  }

  // ----- Whole runs: balance at the end -----

  /** Step `i` handles a visible token: not a newline, and before the end of the file. */
  predicate Visits(tokens: seq<Token>, i: nat)
    requires i < |tokens|
  {
    !RunOf(tokens, i).ended && !tokens[i].kind.Newline? && !tokens[i].kind.Eof?
  }

  /** The blocks that step `i` forgets. */
  function Forgotten(tokens: seq<Token>, i: nat): nat
    requires i < |tokens|
  {
    if Visits(tokens, i) then Blocks(Cut(RunOf(tokens, i).state, tokens[i], NextKind(tokens, i))) else 0
  }

  /** The frames that are no blocks among those that step `i` gives an end. */
  function Superfluous(tokens: seq<Token>, i: nat): nat
    requires i < |tokens|
  {
    if Visits(tokens, i) then NonBlocks(LetClosed(RunOf(tokens, i).state, tokens[i])) else 0
  }

  function AllForgotten(tokens: seq<Token>, n: nat): nat
    requires n <= |tokens|
  {
    if n == 0 then 0 else AllForgotten(tokens, n - 1) + Forgotten(tokens, n - 1)
  }

  function AllSuperfluous(tokens: seq<Token>, n: nat): nat
    requires n <= |tokens|
  {
    if n == 0 then 0 else AllSuperfluous(tokens, n - 1) + Superfluous(tokens, n - 1)
  }

  lemma {:induction false} Totals(tokens: seq<Token>, n: nat)
    requires n <= |tokens|
    ensures RunOf(tokens, n).dropped == AllForgotten(tokens, n) && RunOf(tokens, n).excess == AllSuperfluous(tokens, n)
  {
    if n > 0 {
      Totals(tokens, n - 1);
      AfterCounts(RunOf(tokens, n - 1), tokens[n - 1], NextKind(tokens, n - 1));
    }
  }

  lemma {:induction false} AfterCounts(r: Run, token: Token, next: Option<TokenKind>)
    ensures var visits, r' := !r.ended && !token.kind.Newline? && !token.kind.Eof?, After(r, token, next);
            && r'.dropped == r.dropped + (if visits then Blocks(Cut(r.state, token, next)) else 0)
            && r'.excess == r.excess + (if visits then NonBlocks(LetClosed(r.state, token)) else 0)
  {
    StepCounts(r.state, token, next);
  }

  /** At every point, the starts without an end are the open blocks and the forgotten ones, less the
      superfluous ends; once the file has ended, the markers balance if and only if as many blocks
      were forgotten as ends were superfluous. */
  lemma {:induction false} BalancedExactly(tokens: seq<Token>, n: nat)
    requires n <= |tokens|
    ensures var r := RunOf(tokens, n);
            && Depth(r.result) == Blocks(r.state.frames) + AllForgotten(tokens, n) - AllSuperfluous(tokens, n)
            && (r.ended ==> (Depth(r.result) == 0 <==> AllForgotten(tokens, n) == AllSuperfluous(tokens, n)))
  {
    RunSound(tokens, n);
    Totals(tokens, n);
  }

  // ----- Whole runs: every prefix -----

  lemma {:induction false} AboveJoinExactly(a: seq<Marked>, b: seq<Marked>, base: int)
    ensures Above(a + b, base) <==> Above(a, base) && Above(b, base + Depth(a))
    decreases |b|
  {
    if b == [] {
      assert a + b == a;
      if Above(a, base) { AboveLast(a, base); }
    } else {
      var n := |b| - 1;
      assert (a + b)[..|a + b| - 1] == a + b[..n];
      AboveJoinExactly(a, b[..n], base);
      DepthJoin(a, b);
    }
  }

  /** Without starts the last position is the lowest. */
  lemma {:induction false} FallingAbove(r: seq<Marked>, base: int)
    requires NoStarts(r)
    ensures Depth(r) <= 0 && (Above(r, base) <==> base + Depth(r) >= 0)
  {
    if r != [] { FallingAbove(r[..|r| - 1], base); }
  }

  /** What a token closes before it opens anything. */
  function Closings(s: State, token: Token, next: Option<TokenKind>): Effect {
    if token.kind.Eof? then CloseDownTo(s.frames, 0, token.start) else ClosedPart(s, token, next)
  }

  /** When a step has closed its frames, the superfluous ends so far are covered by the forgotten
      blocks so far and the blocks left open. */
  predicate CoveredBy(r: Run, token: Token, next: Option<TokenKind>) {
    r.ended || token.kind.Newline?
    || var closed := Closings(r.state, token, next);
       r.excess + closed.excess <= r.dropped + closed.dropped + Blocks(closed.frames)
  }

  /** Every one of the first `n` steps is covered. */
  predicate Covered(tokens: seq<Token>, n: nat)
    requires n <= |tokens|
  {
    n == 0 || (Covered(tokens, n - 1) && CoveredBy(RunOf(tokens, n - 1), tokens[n - 1], NextKind(tokens, n - 1)))
  }

  lemma {:induction false} ClosingsLawful(s: State, token: Token, next: Option<TokenKind>)
    requires !token.kind.Newline?
    ensures var closed := Closings(s, token, next);
            Depth(closed.marks) == Blocks(closed.frames) - Blocks(s.frames) + closed.dropped - closed.excess
                && NoStarts(closed.marks)
  {
    if token.kind.Eof? {
      CloseDownToLawful(s.frames, 0, token.start);
      EndsNoStarts(Blocks(s.frames[0..]), token.start);
    } else {
      PartCounts(s, token, next);
      ClosedLawful(s, token, next);
    }
  }

  /** The markers of a step are its closings, and at most one start after them. */
  lemma {:induction false} StepMarks(s: State, token: Token, next: Option<TokenKind>)
    ensures var marks, closed := StepEffect(s, token, next).marks, ClosedPart(s, token, next).marks;
            marks == closed || marks == closed + [Start(token.start)]
  {
    Parts(s, token, next);
    PartCounts(s, token, next);
    var closed := ClosedPart(s, token, next).marks;
    assert closed + [] == closed;
  }

  lemma {:induction false} StartAbove(r: seq<Marked>, at: nat, base: int)
    ensures Above(r + [Start(at)], base) <==> Above(r, base)
  {
    assert (r + [Start(at)])[..|r|] == r;
    if Above(r, base) { AboveLast(r, base); }
  }

  lemma {:induction false} RawAbove(r: seq<Marked>, token: Token, base: int)
    ensures Above(r + [Raw(token)], base) <==> Above(r, base)
  {
    assert (r + [Raw(token)])[..|r|] == r;
    if Above(r, base) { AboveLast(r, base); }
  }

  lemma {:induction false} StepNeverNegative(r: Run, token: Token, next: Option<TokenKind>)
    requires Sound(r)
    ensures NeverNegative(After(r, token, next).result) <==> NeverNegative(r.result) && CoveredBy(r, token, next)
  {
    if !r.ended && !token.kind.Newline? {
      ClosingsLawful(r.state, token, next);
      StepMarks(r.state, token, next);
      var marks := (if token.kind.Eof? then CloseDownTo(r.state.frames, 0, token.start) else StepEffect(r.state, token,
          next)).marks;
      MarksNeverNegative(r.result, marks, Closings(r.state, token, next).marks, token);
    }
  }

  lemma {:induction false} MarksNeverNegative(result: seq<Marked>, marks: seq<Marked>, closed: seq<Marked>,
                                              token: Token)
    requires NoStarts(closed) && (marks == closed || marks == closed + [Start(token.start)])
    ensures NeverNegative(result + marks + [Raw(token)]) <==>
              NeverNegative(result) && Depth(result) + Depth(closed) >= 0
  {
    RawAbove(result + marks, token, 0);
    AboveJoinExactly(result, marks, 0);
    FallingAbove(closed, Depth(result));
    StartAbove(closed, token.start, Depth(result));
  }

  lemma {:induction false} NextNeverNegative(tokens: seq<Token>, n: nat, r: Run, after: Run)
    requires 0 < n <= |tokens| && r == RunOf(tokens, n - 1) && after == RunOf(tokens, n) && Sound(r)
    ensures NeverNegative(after.result)
            <==> NeverNegative(r.result) && CoveredBy(r, tokens[n - 1], NextKind(tokens, n - 1))
  {
    StepNeverNegative(r, tokens[n - 1], NextKind(tokens, n - 1));
    assert after == After(r, tokens[n - 1], NextKind(tokens, n - 1));
  }

  lemma {:induction false} NeverNegativeAt(tokens: seq<Token>, n: nat, r: Run)
    requires n <= |tokens| && r == RunOf(tokens, n)
    ensures NeverNegative(r.result) <==> Covered(tokens, n)
  {
    if n > 0 {
      var before := RunOf(tokens, n - 1);
      NeverNegativeAt(tokens, n - 1, before);
      SoundAt(tokens, n - 1, before);
      NextNeverNegative(tokens, n, before, r);
    }
  }

  /** No prefix of the output has more ends than starts if and only if every step is covered. */
  lemma {:induction false} NeverNegativeExactly(tokens: seq<Token>, n: nat)
    requires n <= |tokens|
    ensures NeverNegative(RunOf(tokens, n).result) <==> Covered(tokens, n)
  {
    NeverNegativeAt(tokens, n, RunOf(tokens, n));
  }

  // ----- Runs without the two deviations -----

  /** The step truncates no block, and its `in` closes only blocks. */
  ghost predicate RegularStep(s: State, token: Token, next: Option<TokenKind>) {
    && (forall f <- Cut(s, token, next) :: !f.kind.InBlock?)
    && (forall f <- LetClosed(s, token) :: f.kind.InBlock?)
  }

  ghost predicate Regular(tokens: seq<Token>, n: nat)
    requires n <= |tokens|
  {
    n == 0 || (Regular(tokens, n - 1) && RegularAt(tokens, n - 1))
  }

  ghost predicate RegularAt(tokens: seq<Token>, i: nat)
    requires i < |tokens|
  {
    Visits(tokens, i) ==> RegularStep(RunOf(tokens, i).state, tokens[i], NextKind(tokens, i))
  }

  /** A run is regular exactly if nothing is forgotten or superfluous. Then starts minus ends are the open
      blocks, none at the end of the file, and no prefix has more ends than starts. */
  lemma {:induction false} RegularRuns(tokens: seq<Token>, n: nat)
    requires n <= |tokens|
    ensures Regular(tokens, n) <==> AllForgotten(tokens, n) == 0 && AllSuperfluous(tokens, n) == 0
    ensures var r := RunOf(tokens, n);
            Regular(tokens, n) ==>
              Depth(r.result) == Blocks(r.state.frames) && NeverNegative(r.result) && (r.ended ==> Depth(r.result) == 0)
  {
    RegularCounts(tokens, n);
    BalancedExactly(tokens, n);
    RunSound(tokens, n);
    Totals(tokens, n);
  }

  lemma {:induction false} RegularCounts(tokens: seq<Token>, n: nat)
    requires n <= |tokens|
    ensures Regular(tokens, n) <==> AllForgotten(tokens, n) == 0 && AllSuperfluous(tokens, n) == 0
  {
    if n > 0 {
      RegularCounts(tokens, n - 1);
      RegularAtCounts(tokens, n - 1, RunOf(tokens, n - 1));
    }
  }

  lemma {:induction false} RegularAtCounts(tokens: seq<Token>, i: nat, r: Run)
    requires i < |tokens| && r == RunOf(tokens, i)
    ensures RegularAt(tokens, i) <==> Forgotten(tokens, i) == 0 && Superfluous(tokens, i) == 0
  {
    RegularStepCounts(r.state, tokens[i], NextKind(tokens, i));
  }

  lemma {:induction false} RegularStepCounts(s: State, token: Token, next: Option<TokenKind>)
    ensures RegularStep(s, token, next) <==> Blocks(Cut(s, token, next)) == 0 && NonBlocks(LetClosed(s, token)) == 0
  {
    BlocksAll(Cut(s, token, next));
    BlocksAll(LetClosed(s, token));
  }

  // ----- Both deviations occur -----

  function Reached(frames: seq<Frame>, pending: Option<BlockKind>, result: seq<Marked>): Run {
    Run(State(frames, pending, false), result, 0, 0, false)
  }

  /** One step of a trace of runs. */
  predicate StepAt(tokens: seq<Token>, runs: seq<Run>, k: nat) {
    k < |tokens| && k + 1 < |runs| ==> runs[k + 1] == After(runs[k], tokens[k], NextKind(tokens, k))
  }

  lemma {:induction false} Traced(tokens: seq<Token>, runs: seq<Run>, n: nat)
    requires n <= |tokens| && n < |runs| && runs[0] == Reached([], None, []) && forall k: nat :: StepAt(tokens, runs, k)
    ensures RunOf(tokens, n) == runs[n]
  {
    if n > 0 {
      Traced(tokens, runs, n - 1);
      assert StepAt(tokens, runs, n - 1);
    }
  }

  lemma {:induction false} Finishes(tokens: seq<Token>, runs: seq<Run>, k: nat, frames: seq<Frame>, result: seq<Marked>,
                                    dropped: nat, excess: nat)
    requires k < |tokens| && k + 1 < |runs| && tokens[k].kind.Eof? && Blocks(frames) == 0
    requires runs[k] == Run(State(frames, None, false), result, dropped, excess, false)
    requires runs[k + 1] == Run(State([], None, false), result + [Raw(tokens[k])], dropped, excess, true)
    ensures StepAt(tokens, runs, k)
  {
    assert frames[0..] == frames;
    assert result + [] == result;
  }

  /** A token on the same line, with no declaration head or property name on top of the stack. */
  lemma {:induction false} PlainStep(frames: seq<Frame>, pending: Option<BlockKind>, result: seq<Marked>, token: Token,
                                     next: Option<TokenKind>, closed: Effect, inside: Effect, last: Effect)
    requires !token.kind.Newline? && !token.kind.Eof? && !TopIs(frames, InDeclarationHead) && !TopIs(frames, InProperty)
    requires CloseFor(frames, false, token, Continues(frames, false, token, next)) == closed
    requires OpenPending(closed.frames, pending, token) == inside && OpenFor(inside.frames, token) == last
    ensures After(Reached(frames, pending, result), token, next)
         == Run(State(last.frames, BlockAfter(token.kind), false),
                result + (closed.marks + inside.marks) + [Raw(token)],
                closed.dropped + last.dropped, closed.excess, false)
  {
    var s := State(frames, pending, false);
    assert Before(frames, false, token) == frames && !IsProperty(frames, false, token);
    assert StepEffect(s, token, next)
           == Effect(last.frames, closed.marks + inside.marks, closed.dropped + last.dropped, closed.excess);
  }

  /** A token that neither closes nor separates anything. */
  lemma {:induction false} QuietStep(frames: seq<Frame>, result: seq<Marked>, token: Token, next: Option<TokenKind>,
                                     top: seq<Frame>)
    requires !token.kind.Newline? && !token.kind.Eof? && !TopIs(frames, InDeclarationHead) && !TopIs(frames, InProperty)
    requires CloseFor(frames, false, token, Continues(frames, false, token, next)) == Same(frames)
    requires OpenFor(frames, token) == Same(top)
    ensures After(Reached(frames, None, result), token, next)
            == Reached(top, BlockAfter(token.kind), result + [Raw(token)])
  {
    PlainStep(frames, None, result, token, next, Same(frames), Same(frames), Same(top));
    assert result + ([] + []) == result;
  }

  lemma {:induction false} OpensIf(tokens: seq<Token>, runs: seq<Run>, k: nat, result: seq<Marked>)
    requires k + 1 < |tokens| && k + 1 < |runs| && tokens[k].kind.If? && runs[k] == Reached([], None, result)
    requires runs[k + 1] == Reached([Frame(tokens[k].indent, InIf)], None, result + [Raw(tokens[k])])
    ensures StepAt(tokens, runs, k)
  {
    QuietStep([], result, tokens[k], NextKind(tokens, k), [Frame(tokens[k].indent, InIf)]);
  }

  lemma {:induction false} ExpectsBlock(tokens: seq<Token>, runs: seq<Run>, k: nat, frames: seq<Frame>,
                                        result: seq<Marked>)
    requires k + 1 < |tokens| && k + 1 < |runs| && (tokens[k].kind.Do? || tokens[k].kind.Let?)
    requires !TopIs(frames, InDeclarationHead) && !TopIs(frames, InProperty) && runs[k] == Reached(frames, None, result)
    requires runs[k + 1] == Reached(frames, BlockAfter(tokens[k].kind), result + [Raw(tokens[k])])
    ensures StepAt(tokens, runs, k)
  {
    QuietStep(frames, result, tokens[k], NextKind(tokens, k), frames);
  }

  lemma {:induction false} OpensBlock(tokens: seq<Token>, runs: seq<Run>, k: nat, frames: seq<Frame>, kind: BlockKind,
                                      result: seq<Marked>)
    requires k + 1 < |tokens| && k + 1 < |runs| && tokens[k].kind.Other? && !kind.OfBlock?
    requires Enclosing(frames).None? && !TopIs(frames, InDeclarationHead) && !TopIs(frames, InProperty)
    requires runs[k] == Reached(frames, Some(kind), result)
    requires runs[k + 1] == Reached(frames + [Frame(tokens[k].indent, InBlock(kind))], None,
                                    result + [Start(tokens[k].start), Raw(tokens[k])])
    ensures StepAt(tokens, runs, k)
  {
    var open, y := frames + [Frame(tokens[k].indent, InBlock(kind))], tokens[k];
    PlainStep(frames, Some(kind), result, y, NextKind(tokens, k), Same(frames), Effect(open, [Start(y.start)], 0, 0),
              Same(open));
    assert result + ([] + [Start(y.start)]) + [Raw(y)] == result + [Start(y.start), Raw(y)];
  }

  lemma {:induction false} CutsTwo(outer: Frame, block: Frame)
    requires outer.kind.InIf? && block.kind.InBlock?
    ensures Truncate([outer, block], InIf) == Effect([], [], 1, 0)
  {
    var frames := [outer, block];
    assert frames[..1] == [outer] && frames[0..] == frames;
    assert Innermost(frames, InIf) == Some(0);
    assert Blocks([]) == 0 && Blocks([outer]) == 0;
  }

  lemma {:induction false} ThenCuts(tokens: seq<Token>, runs: seq<Run>, k: nat, outer: Frame, block: Frame,
                                    result: seq<Marked>)
    requires k + 1 < |tokens| && k + 1 < |runs| && tokens[k].kind.Then? && outer.kind.InIf? && block.kind.InBlock?
    requires runs[k] == Reached([outer, block], None, result)
    requires runs[k + 1] == Run(State([Frame(tokens[k].indent, InThen)], None, false), result + [Raw(tokens[k])], 1, 0,
                                false)
    ensures StepAt(tokens, runs, k)
  {
    var frames, z := [outer, block], tokens[k];
    CutsTwo(outer, block);
    assert OpenFor(frames, z) == Effect([Frame(z.indent, InThen)], [], 1, 0);
    PlainStep(frames, None, result, z, NextKind(tokens, k), Same(frames), Same(frames),
              Effect([Frame(z.indent, InThen)], [], 1, 0));
    assert result + ([] + []) == result;
  }

  /** A block on the line of a `then` is cut away with the `if` it stands in: its start has no end. */
  lemma {:induction false} ThenDropsBlock(t: seq<Token>)
    requires |t| == 5 && t[0].kind.If? && t[1].kind.Do? && t[2].kind.Other? && t[3].kind.Then? && t[4].kind.Eof?
    ensures var r := RunOf(t, 5);
            && r.result == [] + [Raw(t[0])] + [Raw(t[1])] + [Start(t[2].start), Raw(t[2])] + [Raw(t[3])] + [Raw(t[4])]
            && r.dropped == 1 && r.excess == 0
  {
    var outer, block := Frame(t[0].indent, InIf), Frame(t[2].indent, InBlock(DoBlock));
    var r0: seq<Marked> := [];
    var r1 := r0 + [Raw(t[0])];
    var r2 := r1 + [Raw(t[1])];
    var r3 := r2 + [Start(t[2].start), Raw(t[2])];
    var r4 := r3 + [Raw(t[3])];
    var runs := [Reached([], None, r0), Reached([outer], None, r1), Reached([outer], Some(DoBlock), r2),
                 Reached([outer, block], None, r3),
                 Run(State([Frame(t[3].indent, InThen)], None, false), r4, 1, 0, false),
                     Run(State([], None, false), r4 + [Raw(t[4])], 1, 0, true)];
    forall k: nat ensures StepAt(t, runs, k) {
      if k == 0 { OpensIf(t, runs, k, r0); }
      else if k == 1 { ExpectsBlock(t, runs, k, [outer], r1); }
      else if k == 2 { assert [outer] + [block] == [outer, block]; OpensBlock(t, runs, k, [outer], DoBlock, r2); }
      else if k == 3 { ThenCuts(t, runs, k, outer, block, r3); }
      else if k == 4 { Finishes(t, runs, k, [Frame(t[3].indent, InThen)], r4, 1, 0); }
    }
    Traced(t, runs, 5);
  }

  lemma {:induction false} OpensParenthesis(tokens: seq<Token>, runs: seq<Run>, k: nat, frames: seq<Frame>,
                                            result: seq<Marked>)
    requires k + 1 < |tokens| && k + 1 < |runs| && tokens[k].kind.LParen?
    requires !TopIs(frames, InDeclarationHead) && !TopIs(frames, InProperty) && runs[k] == Reached(frames, None, result)
    requires runs[k + 1] == Reached(frames + [Frame(tokens[k].indent, InParen)], None, result + [Raw(tokens[k])])
    ensures StepAt(tokens, runs, k)
  {
    QuietStep(frames, result, tokens[k], NextKind(tokens, k), frames + [Frame(tokens[k].indent, InParen)]);
  }

  lemma {:induction false} ClosesTwo(block: Frame, paren: Frame, at: nat)
    requires block.kind == InBlock(LetBlock) && paren.kind.InParen?
    ensures CloseThroughLet([block, paren], at) == Effect([], [End(at), End(at)], 0, 1)
  {
    var frames := [block, paren];
    assert frames[..1] == [block] && frames[0..] == frames;
    assert Innermost(frames, InBlock(LetBlock)) == Some(0);
    assert Blocks([]) == 0 && Blocks([block]) == 1;
    assert Ends(0, at) == [] && Ends(1, at) == [End(at)] && Ends(2, at) == [End(at), End(at)];
  }

  lemma {:induction false} InCloses(tokens: seq<Token>, runs: seq<Run>, k: nat, block: Frame, paren: Frame,
                                    result: seq<Marked>)
    requires k + 1 < |tokens| && k + 1 < |runs| && tokens[k].kind.In? && block.kind == InBlock(LetBlock)
             && paren.kind.InParen?
    requires runs[k] == Reached([block, paren], None, result)
    requires var end := End(tokens[k].start);
             runs[k + 1] == Run(State([], None, false), result + [end, end] + [Raw(tokens[k])], 0, 1, false)
    ensures StepAt(tokens, runs, k)
  {
    var end := End(tokens[k].start);
    ClosesTwo(block, paren, tokens[k].start);
    PlainStep([block, paren], None, result, tokens[k], NextKind(tokens, k), Effect([], [end, end], 0, 1), Same([]),
              Same([]));
    assert [end, end] + [] == [end, end];
  }

  /** An `in` closes the open parenthesis of its `let` with an end of its own: one end too many. */
  lemma {:induction false} InClosesParenthesis(t: seq<Token>)
    requires |t| == 5 && t[0].kind.Let? && t[1].kind.Other? && t[2].kind.LParen? && t[3].kind.In? && t[4].kind.Eof?
    ensures var r := RunOf(t, 5); var end := End(t[3].start);
            && r.result == [] + [Raw(t[0])] + [Start(t[1].start), Raw(t[1])] + [Raw(t[2])] + [end,
                end] + [Raw(t[3])] + [Raw(t[4])]
            && r.dropped == 0 && r.excess == 1
  {
    var block, paren, end := Frame(t[1].indent, InBlock(LetBlock)), Frame(t[2].indent, InParen), End(t[3].start);
    var r0: seq<Marked> := [];
    var r1 := r0 + [Raw(t[0])];
    var r2 := r1 + [Start(t[1].start), Raw(t[1])];
    var r3 := r2 + [Raw(t[2])];
    var r4 := r3 + [end, end] + [Raw(t[3])];
    var runs := [Reached([], None, r0), Reached([], Some(LetBlock), r1), Reached([block], None, r2),
                 Reached([block, paren], None, r3),
                 Run(State([], None, false), r4, 0, 1, false),
                     Run(State([], None, false), r4 + [Raw(t[4])], 0, 1, true)];
    forall k: nat ensures StepAt(t, runs, k) {
      if k == 0 { ExpectsBlock(t, runs, k, [], r0); }
      else if k == 1 { assert [] + [block] == [block]; OpensBlock(t, runs, k, [], LetBlock, r1); }
      else if k == 2 { assert [block] + [paren] == [block, paren]; OpensParenthesis(t, runs, k, [block], r2); }
      else if k == 3 { InCloses(t, runs, k, block, paren, r3); }
      else if k == 4 { Finishes(t, runs, k, [], r4, 0, 1); }
    }
    Traced(t, runs, 5);
  }
}
