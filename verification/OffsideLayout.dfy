/** Offside layout (crates/psrs-syntax/src/layout.rs): a stack of frames decides where block markers
    go into the token stream.

    `StepEffect` is what one token does to the stack and the output, as a function put together from small
    effects. Every effect is shown to be lawful, runs are sequences of steps, and class `Layouter` is the
    loop with its mutable stack. Frames that are dropped without a marker, or get a marker although they
    are no blocks, are counted.
 */
module OffsideLayout {
  import opened Lists

  datatype BlockKind = WhereBlock | LetBlock | OfBlock | DoBlock | AdoBlock

  datatype FrameKind =
    | InBlock(kind: BlockKind)
    | InParen | InBracket | InBrace | InCase | InIf | InThen | InGuard | InCaseBinders | InLambdaBinders
    | InTick | InProperty | InDeclarationHead

  datatype Frame = Frame(indent: nat, kind: FrameKind)

  datatype TokenKind =
    | Newline | Eof | Operator(minus: bool) | Number | Backtick | DotDot | Then | Else | Pipe | Comma
    | RParen | RBracket | RBrace | LParen | LBracket | LBrace | Where | In | Of | Arrow | Equals
    | Data | Class | Backslash | Case | If | Let | Do | Ado | Other(code: nat)

  /** `indent` is the token's column minus one. */
  datatype Token = Token(kind: TokenKind, start: nat, indent: nat)

  datatype Marked = Raw(token: Token) | Start(at: nat) | Separator(at: nat) | End(at: nat)

  // ----- Output -----

  /** The output without the markers. */
  function Raws(r: seq<Marked>): seq<Token> {
    if r == [] then []
    else
      var last := r[|r| - 1];
      if last.Raw? then Raws(r[..|r| - 1]) + [last.token] else Raws(r[..|r| - 1])
  }

  /** The input without newlines, up to the first end of file. */
  function Visible(tokens: seq<Token>): seq<Token> {
    if tokens == [] then []
    else if tokens[0].kind.Newline? then Visible(tokens[1..])
    else if tokens[0].kind.Eof? then [tokens[0]]
    else [tokens[0]] + Visible(tokens[1..])
  }

  /** Starts minus ends. */
  function Depth(r: seq<Marked>): int {
    if r == [] then 0
    else
      var last := r[|r| - 1];
      Depth(r[..|r| - 1]) + (if last.Start? then 1 else if last.End? then -1 else 0)
  }

  /** From `base` open blocks on, no prefix has more ends than there is to close. */
  predicate Above(r: seq<Marked>, base: int) {
    if r == [] then base >= 0 else Above(r[..|r| - 1], base) && Depth(r) + base >= 0
  }

  lemma {:induction false} AbovePrefixes(r: seq<Marked>, base: int)
    ensures Above(r, base) <==> forall i :: 0 <= i <= |r| ==> Depth(r[..i]) + base >= 0
  {
    if r == [] {
      assert r[..0] == [];
    } else {
      var n := |r| - 1;
      AbovePrefixes(r[..n], base);
      assert r[..|r|] == r;
      assert forall i :: 0 <= i <= n ==> r[..n][..i] == r[..i];
    }
  }

  lemma {:induction false} AboveJoin(a: seq<Marked>, b: seq<Marked>, base: int, middle: int)
    requires Above(a, base) && Above(b, middle) && middle <= base + Depth(a)
    ensures Above(a + b, base)
    decreases |b|
  {
    if b == [] {
      assert a + b == a;
    } else {
      var n := |b| - 1;
      assert (a + b)[..|a + b| - 1] == a + b[..n];
      AboveJoin(a, b[..n], base, middle);
      DepthJoin(a, b);
    }
  }

  /** No end without a start before it. */
  predicate NeverNegative(r: seq<Marked>) {
    Above(r, 0)
  }

  /** Every marker carries the position of the next raw token, which is `next` for the last ones. */
  predicate Placed(r: seq<Marked>, next: nat) {
    if r == [] then true
    else
      var last := r[|r| - 1];
      if last.Raw? then Placed(r[..|r| - 1], last.token.start) else last.at == next && Placed(r[..|r| - 1], next)
  }

  lemma {:induction false} PlacedMeans(r: seq<Marked>, next: nat, i: nat)
    requires Placed(r, next) && i < |r| && !r[i].Raw?
    ensures || ((forall j :: i < j < |r| ==> !r[j].Raw?) && r[i].at == next)
            || exists j ::
                 i < j < |r| && r[j].Raw? && (forall k :: i < k < j ==> !r[k].Raw?) && r[i].at == r[j].token.start
    decreases |r|
  {
    var n := |r| - 1;
    if i < n {
      var next' := if r[n].Raw? then r[n].token.start else next;
      PlacedMeans(r[..n], next', i);
      assert forall k :: i < k < n ==> r[..n][k] == r[k];
      if r[n].Raw? && forall j :: i < j < n ==> !r[j].Raw? {
        assert r[n].Raw? && (forall k :: i < k < n ==> !r[k].Raw?) && r[i].at == r[n].token.start;
      }
    }
  }

  lemma {:induction false} DepthJoin(a: seq<Marked>, b: seq<Marked>)
    ensures Depth(a + b) == Depth(a) + Depth(b)
    decreases |b|
  {
    if b == [] {
      assert a + b == a;
    } else {
      var n := |b| - 1;
      assert (a + b)[..|a + b| - 1] == a + b[..n];
      DepthJoin(a, b[..n]);
    }
  }

  lemma {:induction false} RawsJoin(a: seq<Marked>, b: seq<Marked>)
    ensures Raws(a + b) == Raws(a) + Raws(b)
    decreases |b|
  {
    if b == [] {
      assert a + b == a;
    } else {
      var n := |b| - 1;
      assert (a + b)[..|a + b| - 1] == a + b[..n];
      RawsJoin(a, b[..n]);
      if b[n].Raw? { assert Raws(a) + (Raws(b[..n]) + [b[n].token]) == Raws(a) + Raws(b[..n]) + [b[n].token]; }
    }
  }

  // ----- The stack -----

  function Blocks(frames: seq<Frame>): (n: nat)
    ensures n <= |frames|
  {
    if frames == [] then 0
    else Blocks(frames[..|frames| - 1]) + (if frames[|frames| - 1].kind.InBlock? then 1 else 0)
  }

  lemma {:induction false} BlocksJoin(a: seq<Frame>, b: seq<Frame>)
    ensures Blocks(a + b) == Blocks(a) + Blocks(b)
    decreases |b|
  {
    if b == [] {
      assert a + b == a;
    } else {
      assert (a + b)[..|a + b| - 1] == a + b[..|b| - 1];
      BlocksJoin(a, b[..|b| - 1]);
    }
  }

  lemma {:induction false} OnlyBlocks(frames: seq<Frame>)
    requires forall f <- frames :: f.kind.InBlock?
    ensures Blocks(frames) == |frames|
  {
    if frames != [] { OnlyBlocks(frames[..|frames| - 1]); }
  }

  /** The innermost block, if any. */
  function Enclosing(frames: seq<Frame>): Option<Frame> {
    if frames == [] then None
    else if frames[|frames| - 1].kind.InBlock? then Some(frames[|frames| - 1])
    else Enclosing(frames[..|frames| - 1])
  }

  /** Every block is indented past the block below it. */
  predicate Increasing(frames: seq<Frame>) {
    frames == [] || (Increasing(frames[..|frames| - 1]) && Deeper(frames[..|frames| - 1], frames[|frames| - 1]))
  }

  predicate Deeper(frames: seq<Frame>, f: Frame) {
    f.kind.InBlock? && Enclosing(frames).Some? ==> Enclosing(frames).value.indent < f.indent
  }

  lemma {:induction false} EnclosingLargest(frames: seq<Frame>, i: nat)
    requires Increasing(frames) && i < |frames| && frames[i].kind.InBlock?
    ensures Enclosing(frames).Some? && frames[i].indent <= Enclosing(frames).value.indent
    ensures i < |frames| - 1 && TopBlock(frames) ==> frames[i].indent < frames[|frames| - 1].indent
  {
    var n := |frames| - 1;
    if i < n {
      assert frames[..n][i] == frames[i];
      EnclosingLargest(frames[..n], i);
    }
  }

  /** So the indents of all blocks on the stack strictly increase. */
  lemma {:induction false} IncreasingPairs(frames: seq<Frame>, i: nat, j: nat)
    requires Increasing(frames) && i < j < |frames| && frames[i].kind.InBlock? && frames[j].kind.InBlock?
    ensures frames[i].indent < frames[j].indent
    decreases |frames|
  {
    var n := |frames| - 1;
    if j < n {
      assert frames[..n][i] == frames[i] && frames[..n][j] == frames[j];
      IncreasingPairs(frames[..n], i, j);
    } else {
      EnclosingLargest(frames, i);
    }
  }

  /** The position of the innermost frame of a kind (`rposition`). */
  function Innermost(frames: seq<Frame>, kind: FrameKind): (r: Option<nat>)
    ensures r.Some? ==> r.value < |frames| && frames[r.value].kind == kind
  {
    if frames == [] then None
    else if frames[|frames| - 1].kind == kind then Some(|frames| - 1)
    else Innermost(frames[..|frames| - 1], kind)
  }

  predicate TopIs(frames: seq<Frame>, kind: FrameKind) {
    frames != [] && frames[|frames| - 1].kind == kind
  }

  predicate TopBlock(frames: seq<Frame>) {
    frames != [] && frames[|frames| - 1].kind.InBlock?
  }

  datatype Closing = Always | OnlyDo | Outdented(column: nat) | DoOrOutdented(column: nat)

  predicate Closes(closing: Closing, f: Frame) {
    && f.kind.InBlock?
    && match closing
       case Always => true
       case OnlyDo => f.kind.kind.DoBlock?
       case Outdented(column) => column < f.indent
       case DoOrOutdented(column) => f.kind.kind.DoBlock? || column <= f.indent
  }

  /** What is left when the closing blocks on top are gone. */
  function Remaining(frames: seq<Frame>, closing: Closing): (rest: seq<Frame>)
    ensures |rest| <= |frames| && rest == frames[..|rest|]
  {
    if frames != [] && Closes(closing, frames[|frames| - 1]) then Remaining(frames[..|frames| - 1], closing) else frames
  }

  lemma {:induction false} RemainingIs(frames: seq<Frame>, closing: Closing)
    ensures var rest := Remaining(frames, closing);
            && (rest != [] ==> !Closes(closing, rest[|rest| - 1]))
            && forall i :: |rest| <= i < |frames| ==> Closes(closing, frames[i])
  {
    if frames != [] && Closes(closing, frames[|frames| - 1]) {
      var n := |frames| - 1;
      RemainingIs(frames[..n], closing);
      assert forall i :: 0 <= i < n ==> frames[..n][i] == frames[i];
    }
  }

  function Ends(count: nat, at: nat): (r: seq<Marked>)
    ensures |r| == count
  {
    if count == 0 then [] else Ends(count - 1, at) + [End(at)]
  }

  // ----- What one token does, as functions -----

  /** New frames, the markers written, the blocks dropped without a marker, and the other frames
      closed with one. */
  datatype Effect = Effect(frames: seq<Frame>, marks: seq<Marked>, dropped: nat, excess: nat)

  function Same(frames: seq<Frame>): Effect {
    Effect(frames, [], 0, 0)
  }

  function CloseBlocks(frames: seq<Frame>, closing: Closing, at: nat): Effect {
    var rest := Remaining(frames, closing);
    Effect(rest, Ends(|frames| - |rest|, at), 0, 0)
  }

  function CloseDownTo(frames: seq<Frame>, index: nat, at: nat): Effect
    requires index <= |frames|
  {
    Effect(frames[..index], Ends(Blocks(frames[index..]), at), 0, 0)
  }

  /** Every frame from the innermost let on is closed with a marker. */
  function CloseThroughLet(frames: seq<Frame>, at: nat): Effect {
    match Innermost(frames, InBlock(LetBlock))
    case None => Same(frames)
    case Some(index) =>
      Effect(frames[..index], Ends(|frames| - index, at), 0, |frames[index..]| - Blocks(frames[index..]))
  }

  /** The innermost frame of a kind and everything above it is forgotten. */
  function Truncate(frames: seq<Frame>, kind: FrameKind): Effect {
    match Innermost(frames, kind)
    case None => Same(frames)
    case Some(index) => Effect(frames[..index], [], Blocks(frames[index..]), 0)
  }

  function Push(frames: seq<Frame>, indent: nat, kind: FrameKind): Effect {
    Same(frames + [Frame(indent, kind)])
  }

  function Popped(frames: seq<Frame>, pop: bool): seq<Frame> {
    if pop && frames != [] then frames[..|frames| - 1] else frames
  }

  function CloseThenTruncate(frames: seq<Frame>, kind: FrameKind, at: nat): Effect {
    var closed := CloseBlocks(frames, Always, at);
    var cut := Truncate(closed.frames, kind);
    closed.(frames := cut.frames, dropped := cut.dropped)
  }

  predicate TopBinders(frames: seq<Frame>) {
    TopIs(frames, InGuard) || TopIs(frames, InCaseBinders) || TopIs(frames, InLambdaBinders)
  }

  function CloseBinders(frames: seq<Frame>, at: nat): Effect {
    var closed := CloseBlocks(frames, OnlyDo, at);
    closed.(frames := Popped(closed.frames, TopBinders(closed.frames)))
  }

  /** The first token of a line: deeper blocks end, a block at this column gets a separator. */
  function NewLine(frames: seq<Frame>, token: Token, continues: bool): Effect {
    var closed := CloseBlocks(frames, Outdented(token.indent), token.start);
    var rest := closed.frames;
    if !continues && TopBlock(rest) && rest[|rest| - 1].indent == token.indent then
      closed.(frames := rest + (if TopIs(rest, InBlock(OfBlock)) then [Frame(token.indent, InCaseBinders)] else []),
              marks := closed.marks + [Separator(token.start)])
    else closed
  }

  predicate Continues(frames: seq<Frame>, crossed: bool, token: Token, next: Option<TokenKind>) {
    (token.kind.Operator? || token.kind.Backtick? || token.kind.DotDot? || token.kind.Then? || token.kind.Else?
     || token.kind.Pipe?)
    && !(crossed && token.kind == Operator(true) && next == Some(Number)
         && TopIs(frames, InBlock(OfBlock)) && frames[|frames| - 1].indent == token.indent)
  }

  predicate EndsHead(frames: seq<Frame>, crossed: bool, token: Token) {
    crossed && TopIs(frames, InDeclarationHead) && token.indent <= frames[|frames| - 1].indent
  }

  function AfterHead(frames: seq<Frame>, crossed: bool, token: Token): seq<Frame> {
    Popped(frames, EndsHead(frames, crossed, token))
  }

  predicate IsProperty(frames: seq<Frame>, crossed: bool, token: Token) {
    TopIs(AfterHead(frames, crossed, token), InProperty) && !token.kind.RBrace? && !token.kind.Pipe?
  }

  /** The stack without a finished declaration head or property name. */
  function Before(frames: seq<Frame>, crossed: bool, token: Token): seq<Frame> {
    var rest := AfterHead(frames, crossed, token);
    Popped(rest, TopIs(rest, InProperty))
  }

  /** A second backtick under blocks ends the quoted operator, any other starts one. */
  function CloseTick(frames: seq<Frame>, indent: nat, at: nat): Effect {
    var closed := CloseBlocks(frames, Always, at);
    if TopIs(closed.frames, InTick) then closed.(frames := Popped(closed.frames, true)) else Push(frames, indent,
        InTick)
  }

  function CloseComma(frames: seq<Frame>, indent: nat, at: nat): Effect {
    var closed := CloseBlocks(frames, Always, at);
    if TopIs(closed.frames, InBrace) then closed.(frames := closed.frames + [Frame(indent, InProperty)]) else closed
  }

  function CloseElse(frames: seq<Frame>, crossed: bool, indent: nat, at: nat): Effect {
    match Innermost(frames, InThen)
    case Some(index) => CloseDownTo(frames, index, at)
    case None => if crossed then CloseBlocks(frames, Outdented(indent), at) else Same(frames)
  }

  /** The frame that a closing token is paired with. */
  function Closer(kind: TokenKind): Option<FrameKind> {
    match kind
    case RParen => Some(InParen)
    case RBracket => Some(InBracket)
    case RBrace => Some(InBrace)
    case Of => Some(InCase)
    case _ => None
  }

  /** The blocks a token closes. */
  function CloseFor(frames: seq<Frame>, crossed: bool, token: Token, continues: bool): Effect {
    var at, indent := token.start, token.indent;
    if Closer(token.kind).Some? then CloseThenTruncate(frames, Closer(token.kind).value, at)
    else
      match token.kind
      case Backtick => CloseTick(frames, indent, at)
      case Comma => CloseComma(frames, indent, at)
      case Where => CloseBlocks(Popped(frames, TopIs(frames, InDeclarationHead)), DoOrOutdented(indent), at)
      case In => CloseThroughLet(frames, at)
      case Else => CloseElse(frames, crossed, indent, at)
      case Arrow => CloseBinders(frames, at)
      case Equals => CloseBinders(frames, at)
      case _ => if crossed then NewLine(frames, token, continues) else Same(frames)
  }

  /** A block opens at the token after its keyword, when it is indented past the enclosing block. */
  function OpenPending(frames: seq<Frame>, pending: Option<BlockKind>, token: Token): Effect {
    if pending.None? || (Enclosing(frames).Some? && token.indent <= Enclosing(frames).value.indent) then Same(frames)
    else
      var inside := frames + [Frame(token.indent, InBlock(pending.value))];
      Effect(if pending.value.OfBlock? then inside + [Frame(token.indent, InCaseBinders)] else inside,
             [Start(token.start)], 0, 0)
  }

  predicate Guardable(frames: seq<Frame>) {
    && !TopIs(frames, InDeclarationHead) && Enclosing(frames).Some?
    && var kind := Enclosing(frames).value.kind;
       kind == InBlock(OfBlock) || kind == InBlock(LetBlock) || kind == InBlock(WhereBlock)
  }

  /** The frame that a token simply opens. */
  function Opens(kind: TokenKind): Option<FrameKind> {
    match kind
    case Data => Some(InDeclarationHead)
    case Class => Some(InDeclarationHead)
    case Backslash => Some(InLambdaBinders)
    case LParen => Some(InParen)
    case LBracket => Some(InBracket)
    case Case => Some(InCase)
    case If => Some(InIf)
    case _ => None
  }

  /** The frames a token opens; a declaration head only directly in a block. */
  function OpenFor(frames: seq<Frame>, token: Token): Effect {
    var indent := token.indent;
    if token.kind.LBrace? then Same(frames + [Frame(indent, InBrace), Frame(indent, InProperty)])
    else if token.kind.Then? then
      var cut := Truncate(frames, InIf);
      cut.(frames := cut.frames + [Frame(indent, InThen)])
    else if token.kind.Pipe? then
      var popped := Popped(frames, TopIs(frames, InCaseBinders));
      if Guardable(popped) then Push(popped, indent, InGuard) else Same(popped)
    else if Opens(token.kind).Some? && (token.kind.Data? || token.kind.Class? ==> TopBlock(frames)) then
      Push(frames, indent, Opens(token.kind).value)
    else Same(frames)
  }

  function BlockAfter(kind: TokenKind): Option<BlockKind> {
    match kind
    case Where => Some(WhereBlock)
    case Let => Some(LetBlock)
    case Of => Some(OfBlock)
    case Do => Some(DoBlock)
    case Ado => Some(AdoBlock)
    case _ => None
  }

  datatype State = State(frames: seq<Frame>, pending: Option<BlockKind>, crossedNewline: bool)

  /** First the token closes frames. */
  function ClosedPart(s: State, token: Token, next: Option<TokenKind>): Effect {
    var before := Before(s.frames, s.crossedNewline, token);
    if IsProperty(s.frames, s.crossedNewline, token) then Same(before)
    else CloseFor(before, s.crossedNewline, token, Continues(s.frames, s.crossedNewline, token, next))
  }

  /** Then a pending block opens. */
  function OpenedPart(s: State, token: Token, next: Option<TokenKind>): Effect {
    OpenPending(ClosedPart(s, token, next).frames, s.pending, token)
  }

  /** At last the token opens frames of its own. */
  function LastPart(s: State, token: Token, next: Option<TokenKind>): Effect {
    var inside := OpenedPart(s, token, next).frames;
    if IsProperty(s.frames, s.crossedNewline, token) then Same(inside) else OpenFor(inside, token)
  }

  /** Everything a visible token does before it is written. */
  function StepEffect(s: State, token: Token, next: Option<TokenKind>): Effect {
    var closed, inside, last := ClosedPart(s, token, next), OpenedPart(s, token, next), LastPart(s, token, next);
    Effect(last.frames, closed.marks + inside.marks, closed.dropped + last.dropped, closed.excess)
  }

  function StepState(s: State, token: Token, next: Option<TokenKind>): State {
    State(StepEffect(s, token, next).frames,
          if IsProperty(s.frames, s.crossedNewline, token) then None else BlockAfter(token.kind), false)
  }

  // ----- The effect of every step is lawful -----

  predicate MarksAt(marks: seq<Marked>, at: nat) {
    marks == [] || (MarksAt(marks[..|marks| - 1], at) && !marks[|marks| - 1].Raw? && marks[|marks| - 1].at == at)
  }

  lemma {:induction false} MarksJoin(a: seq<Marked>, b: seq<Marked>, at: nat)
    requires MarksAt(a, at) && MarksAt(b, at)
    ensures MarksAt(a + b, at)
    decreases |b|
  {
    if b == [] {
      assert a + b == a;
    } else {
      assert (a + b)[..|a + b| - 1] == a + b[..|b| - 1];
      MarksJoin(a, b[..|b| - 1], at);
    }
  }

  lemma {:induction false} EndsAt(count: nat, at: nat)
    ensures MarksAt(Ends(count, at), at)
  {
    if count > 0 {
      assert Ends(count, at)[..count - 1] == Ends(count - 1, at);
      EndsAt(count - 1, at);
    }
  }

  /** Starts and ends account for the change in open blocks, up to dropped and excess ones. */
  ghost predicate Lawful(frames: seq<Frame>, e: Effect, at: nat) {
    && (Increasing(frames) ==> Increasing(e.frames)) && MarksAt(e.marks, at)
    && Depth(e.marks) == Blocks(e.frames) - Blocks(frames) + e.dropped - e.excess
    && (e.excess == 0 ==> Above(e.marks, Blocks(frames)))
  }

  lemma {:induction false} MarksLawful(frames: seq<Frame>, a: Effect, b: Effect, at: nat)
    requires Lawful(frames, a, at) && Lawful(a.frames, b, at) && b.dropped == 0 && b.excess == 0
    ensures Lawful(frames, a.(frames := b.frames, marks := a.marks + b.marks), at)
  {
    DepthJoin(a.marks, b.marks);
    MarksJoin(a.marks, b.marks, at);
    if a.excess == 0 { AboveJoin(a.marks, b.marks, Blocks(frames), Blocks(a.frames)); }
  }

  lemma {:induction false} EndsDepth(count: nat, at: nat)
    ensures Depth(Ends(count, at)) == 0 - count
  {
    if count > 0 {
      assert Ends(count, at)[..count - 1] == Ends(count - 1, at);
      EndsDepth(count - 1, at);
    }
  }

  lemma {:induction false} EndsAbove(count: nat, at: nat, base: nat)
    requires count <= base
    ensures Above(Ends(count, at), base)
  {
    if count > 0 {
      assert Ends(count, at)[..count - 1] == Ends(count - 1, at);
      EndsAbove(count - 1, at, base);
      EndsDepth(count, at);
    }
  }

  lemma {:induction false} PrefixIncreasing(frames: seq<Frame>, i: nat)
    requires i <= |frames|
    ensures Increasing(frames) ==> Increasing(frames[..i])
    ensures Blocks(frames) == Blocks(frames[..i]) + Blocks(frames[i..])
    decreases |frames|
  {
    assert frames == frames[..i] + frames[i..];
    BlocksJoin(frames[..i], frames[i..]);
    if i < |frames| {
      PrefixIncreasing(frames[..|frames| - 1], i);
      assert frames[..|frames| - 1][..i] == frames[..i];
    } else {
      assert frames[..i] == frames;
    }
  }

  lemma {:induction false} SameLawful(frames: seq<Frame>, at: nat)
    ensures Lawful(frames, Same(frames), at)
  {
  }

  /** Popping frames with one end marker for every block among them. */
  lemma {:induction false} CutLawful(frames: seq<Frame>, index: nat, ends: nat, dropped: nat, excess: nat, at: nat)
    requires index <= |frames| && ends == Blocks(frames[index..]) - dropped + excess
             && (excess == 0 ==> ends <= Blocks(frames))
    ensures Lawful(frames, Effect(frames[..index], Ends(ends, at), dropped, excess), at)
  {
    PrefixIncreasing(frames, index);
    EndsDepth(ends, at);
    EndsAt(ends, at);
    if excess == 0 { EndsAbove(ends, at, Blocks(frames)); }
  }

  lemma {:induction false} CloseBlocksLawful(frames: seq<Frame>, closing: Closing, at: nat)
    ensures Lawful(frames, CloseBlocks(frames, closing, at), at)
  {
    var n := |Remaining(frames, closing)|;
    PrefixIncreasing(frames, n);
    RemainingIs(frames, closing);
    assert forall f <- frames[n..] :: f.kind.InBlock?;
    OnlyBlocks(frames[n..]);
    CutLawful(frames, n, |frames| - n, 0, 0, at);
  }

  lemma {:induction false} CloseDownToLawful(frames: seq<Frame>, index: nat, at: nat)
    requires index <= |frames|
    ensures Lawful(frames, CloseDownTo(frames, index, at), at)
  {
    PrefixIncreasing(frames, index);
    CutLawful(frames, index, Blocks(frames[index..]), 0, 0, at);
  }

  lemma {:induction false} CloseThroughLetLawful(frames: seq<Frame>, at: nat)
    ensures Lawful(frames, CloseThroughLet(frames, at), at)
  {
    match Innermost(frames, InBlock(LetBlock))
    case None => SameLawful(frames, at);
    case Some(index) =>
      PrefixIncreasing(frames, index);
      CutLawful(frames, index, |frames| - index, 0, |frames[index..]| - Blocks(frames[index..]), at);
  }

  lemma {:induction false} TruncateLawful(frames: seq<Frame>, kind: FrameKind, at: nat)
    ensures Lawful(frames, Truncate(frames, kind), at)
  {
    match Innermost(frames, kind)
    case None => SameLawful(frames, at);
    case Some(index) => CutLawful(frames, index, 0, Blocks(frames[index..]), 0, at);
  }

  lemma {:induction false} PushLawful(frames: seq<Frame>, indent: nat, kind: FrameKind, at: nat)
    requires !kind.InBlock?
    ensures Lawful(frames, Push(frames, indent, kind), at)
  {
    assert (frames + [Frame(indent, kind)])[..|frames|] == frames;
    SameLawful(frames, at);
  }

  lemma {:induction false} PopKeeps(frames: seq<Frame>, pop: bool)
    requires pop ==> !TopBlock(frames)
    ensures Blocks(Popped(frames, pop)) == Blocks(frames) && (Increasing(frames) ==> Increasing(Popped(frames, pop)))
  {
    if pop && frames != [] { PrefixIncreasing(frames, |frames| - 1); }
  }

  lemma {:induction false} PushKeeps(frames: seq<Frame>, indent: nat, kind: FrameKind)
    requires !kind.InBlock?
    ensures var more := frames + [Frame(indent, kind)];
            Blocks(more) == Blocks(frames) && (Increasing(frames) ==> Increasing(more))
  {
    assert (frames + [Frame(indent, kind)])[..|frames|] == frames;
  }

  /** Frames that are no blocks may come and go. */
  lemma {:induction false} FramesLawful(frames: seq<Frame>, e: Effect, after: seq<Frame>, at: nat)
    requires Lawful(frames, e, at) && Blocks(after) == Blocks(e.frames) && (Increasing(e.frames) ==> Increasing(after))
    ensures Lawful(frames, e.(frames := after), at)
  {
  }

  lemma {:induction false} CloseThenTruncateLawful(frames: seq<Frame>, kind: FrameKind, at: nat)
    ensures Lawful(frames, CloseThenTruncate(frames, kind, at), at)
  {
    var closed := CloseBlocks(frames, Always, at);
    CloseBlocksLawful(frames, Always, at);
    TruncateLawful(closed.frames, kind, at);
    JoinLawful(frames, closed, Truncate(closed.frames, kind), at);
  }

  /** A truncation after closings. */
  lemma {:induction false} JoinLawful(frames: seq<Frame>, closed: Effect, cut: Effect, at: nat)
    requires Lawful(frames, closed, at) && Lawful(closed.frames, cut, at) && cut.marks == [] && cut.excess == 0
    ensures Lawful(frames, closed.(frames := cut.frames, dropped := closed.dropped + cut.dropped), at)
  {
  }

  lemma {:induction false} NewLineLawful(frames: seq<Frame>, token: Token, continues: bool)
    ensures Lawful(frames, NewLine(frames, token, continues), token.start)
  {
    var at := token.start;
    var closed := CloseBlocks(frames, Outdented(token.indent), at);
    CloseBlocksLawful(frames, Outdented(token.indent), at);
    var rest := closed.frames;
    if !continues && TopBlock(rest) && rest[|rest| - 1].indent == token.indent {
      var more := if TopIs(rest, InBlock(OfBlock)) then [Frame(token.indent, InCaseBinders)] else [];
      if more == [] { assert rest + more == rest; } else { PushKeeps(rest, token.indent, InCaseBinders); }
      SingleLawful(rest, rest + more, Separator(at), at);
      MarksLawful(frames, closed, Effect(rest + more, [Separator(at)], 0, 0), at);
    }
  }

  lemma {:induction false} SingleLawful(frames: seq<Frame>, after: seq<Frame>, m: Marked, at: nat)
    requires !m.Raw? && !m.End? && m.at == at && (Increasing(frames) ==> Increasing(after))
    requires Blocks(after) == Blocks(frames) + (if m.Start? then 1 else 0)
    ensures Lawful(frames, Effect(after, [m], 0, 0), at)
  {
    assert [m][..0] == [];
    assert Depth([m]) == if m.Start? then 1 else 0;
  }

  lemma {:induction false} OpenPendingLawful(frames: seq<Frame>, pending: Option<BlockKind>, token: Token)
    ensures Lawful(frames, OpenPending(frames, pending, token), token.start)
  {
    var at := token.start;
    SameLawful(frames, at);
    if pending.Some? && (Enclosing(frames).Some? ==> token.indent > Enclosing(frames).value.indent) {
      var inside := frames + [Frame(token.indent, InBlock(pending.value))];
      assert inside[..|frames|] == frames;
      assert Increasing(frames) ==> Increasing(inside);
      if pending.value.OfBlock? { PushLawful(inside, token.indent, InCaseBinders, at); }
      SingleLawful(frames, OpenPending(frames, pending, token).frames, Start(at), at);
    }
  }

  predicate Delimits(kind: TokenKind) {
    kind.Backtick? || kind.Comma? || kind.RParen? || kind.RBracket? || kind.RBrace? || kind.Of?
  }

  lemma {:induction false} CloseForLawful(frames: seq<Frame>, crossed: bool, token: Token, continues: bool)
    ensures Lawful(frames, CloseFor(frames, crossed, token, continues), token.start)
  {
    if Delimits(token.kind) {
      DelimiterLawful(frames, crossed, token, continues);
    } else if token.kind.Where? {
      WhereLawful(frames, token.indent, token.start);
    } else if token.kind.In? {
      InLawful(frames, crossed, token, continues);
    } else if token.kind.Else? {
      ElseWordLawful(frames, crossed, token, continues);
    } else if token.kind.Arrow? || token.kind.Equals? {
      ArrowLawful(frames, crossed, token, continues);
    } else {
      OtherLawful(frames, crossed, token, continues);
    }
  }

  lemma {:induction false} DelimiterLawful(frames: seq<Frame>, crossed: bool, token: Token, continues: bool)
    requires Delimits(token.kind)
    ensures Lawful(frames, CloseFor(frames, crossed, token, continues), token.start)
  {
    if token.kind.Backtick? { TickLawful(frames, token.indent, token.start); }
    else if token.kind.Comma? { CommaLawful(frames, token.indent, token.start); }
    else { CloseThenTruncateLawful(frames, Closer(token.kind).value, token.start); }
  }

  lemma {:induction false} InLawful(frames: seq<Frame>, crossed: bool, token: Token, continues: bool)
    requires token.kind.In?
    ensures Lawful(frames, CloseFor(frames, crossed, token, continues), token.start)
  {
    assert CloseFor(frames, crossed, token, continues) == CloseThroughLet(frames, token.start);
    CloseThroughLetLawful(frames, token.start);
  }

  lemma {:induction false} ElseWordLawful(frames: seq<Frame>, crossed: bool, token: Token, continues: bool)
    requires token.kind.Else?
    ensures Lawful(frames, CloseFor(frames, crossed, token, continues), token.start)
  {
    assert CloseFor(frames, crossed, token, continues) == CloseElse(frames, crossed, token.indent, token.start);
    ElseLawful(frames, crossed, token.indent, token.start);
  }

  lemma {:induction false} ArrowLawful(frames: seq<Frame>, crossed: bool, token: Token, continues: bool)
    requires token.kind.Arrow? || token.kind.Equals?
    ensures Lawful(frames, CloseFor(frames, crossed, token, continues), token.start)
  {
    BindersLawful(frames, token.start);
  }

  lemma {:induction false} OtherLawful(frames: seq<Frame>, crossed: bool, token: Token, continues: bool)
    requires !Delimits(token.kind) && !token.kind.Where? && !token.kind.In? && !token.kind.Else?
    requires !token.kind.Arrow? && !token.kind.Equals?
    ensures Lawful(frames, CloseFor(frames, crossed, token, continues), token.start)
  {
    if crossed { NewLineLawful(frames, token, continues); } else { SameLawful(frames, token.start); }
  }

  lemma {:induction false} TickLawful(frames: seq<Frame>, indent: nat, at: nat)
    ensures Lawful(frames, CloseTick(frames, indent, at), at)
  {
    var closed := CloseBlocks(frames, Always, at);
    CloseBlocksLawful(frames, Always, at);
    if TopIs(closed.frames, InTick) {
      PopKeeps(closed.frames, true);
      FramesLawful(frames, closed, Popped(closed.frames, true), at);
    } else {
      PushLawful(frames, indent, InTick, at);
    }
  }

  lemma {:induction false} CommaLawful(frames: seq<Frame>, indent: nat, at: nat)
    ensures Lawful(frames, CloseComma(frames, indent, at), at)
  {
    var closed := CloseBlocks(frames, Always, at);
    CloseBlocksLawful(frames, Always, at);
    if TopIs(closed.frames, InBrace) {
      PushKeeps(closed.frames, indent, InProperty);
      FramesLawful(frames, closed, closed.frames + [Frame(indent, InProperty)], at);
    }
  }

  lemma {:induction false} ElseLawful(frames: seq<Frame>, crossed: bool, indent: nat, at: nat)
    ensures Lawful(frames, CloseElse(frames, crossed, indent, at), at)
  {
    match Innermost(frames, InThen)
    case Some(index) => CloseDownToLawful(frames, index, at);
    case None => if crossed { CloseBlocksLawful(frames, Outdented(indent), at); } else { SameLawful(frames, at); }
  }

  lemma {:induction false} WhereLawful(frames: seq<Frame>, indent: nat, at: nat)
    ensures Lawful(frames, CloseBlocks(Popped(frames, TopIs(frames, InDeclarationHead)), DoOrOutdented(indent), at), at)
  {
    var popped := Popped(frames, TopIs(frames, InDeclarationHead));
    PopKeeps(frames, TopIs(frames, InDeclarationHead));
    CloseBlocksLawful(popped, DoOrOutdented(indent), at);
    FromLawful(frames, popped, CloseBlocks(popped, DoOrOutdented(indent), at), at);
  }

  /** Lawfulness depends on the starting frames through their blocks only. */
  lemma {:induction false} FromLawful(frames: seq<Frame>, other: seq<Frame>, e: Effect, at: nat)
    requires Lawful(other, e, at) && Blocks(other) == Blocks(frames) && (Increasing(frames) ==> Increasing(other))
    ensures Lawful(frames, e, at)
  {
  }

  lemma {:induction false} BindersLawful(frames: seq<Frame>, at: nat)
    ensures Lawful(frames, CloseBinders(frames, at), at)
  {
    var closed := CloseBlocks(frames, OnlyDo, at);
    CloseBlocksLawful(frames, OnlyDo, at);
    PopKeeps(closed.frames, TopBinders(closed.frames));
    FramesLawful(frames, closed, Popped(closed.frames, TopBinders(closed.frames)), at);
  }

  lemma {:induction false} OpenForLawful(frames: seq<Frame>, token: Token)
    ensures Lawful(frames, OpenFor(frames, token), token.start)
  {
    if token.kind.Then? {
      ThenLawful(frames, token);
    } else if token.kind.Pipe? {
      PipeLawful(frames, token);
    } else if token.kind.LBrace? {
      BraceLawful(frames, token);
    } else {
      SameLawful(frames, token.start);
      if Opens(token.kind).Some? { PushLawful(frames, token.indent, Opens(token.kind).value, token.start); }
    }
  }

  lemma {:induction false} ThenLawful(frames: seq<Frame>, token: Token)
    requires token.kind.Then?
    ensures Lawful(frames, OpenFor(frames, token), token.start)
  {
    var cut := Truncate(frames, InIf);
    TruncateLawful(frames, InIf, token.start);
    PushKeeps(cut.frames, token.indent, InThen);
    FramesLawful(frames, cut, cut.frames + [Frame(token.indent, InThen)], token.start);
  }

  lemma {:induction false} PipeLawful(frames: seq<Frame>, token: Token)
    requires token.kind.Pipe?
    ensures Lawful(frames, OpenFor(frames, token), token.start)
  {
    var popped := Popped(frames, TopIs(frames, InCaseBinders));
    SameLawful(frames, token.start);
    PopKeeps(frames, TopIs(frames, InCaseBinders));
    PushKeeps(popped, token.indent, InGuard);
  }

  lemma {:induction false} BraceLawful(frames: seq<Frame>, token: Token)
    requires token.kind.LBrace?
    ensures Lawful(frames, OpenFor(frames, token), token.start)
  {
    var indent := token.indent;
    SameLawful(frames, token.start);
    PushKeeps(frames, indent, InBrace);
    PushKeeps(frames + [Frame(indent, InBrace)], indent, InProperty);
    assert frames + [Frame(indent, InBrace)] + [Frame(indent, InProperty)]
           == frames + [Frame(indent, InBrace), Frame(indent, InProperty)];
  }

  lemma {:induction false} OpenSilent(frames: seq<Frame>, token: Token)
    ensures OpenFor(frames, token).marks == [] && OpenFor(frames, token).excess == 0
  {
  }

  lemma {:induction false} BeforeKeeps(frames: seq<Frame>, crossed: bool, token: Token)
    ensures var before := Before(frames, crossed, token);
            Blocks(before) == Blocks(frames) && (Increasing(frames) ==> Increasing(before))
  {
    var rest := AfterHead(frames, crossed, token);
    PopKeeps(frames, EndsHead(frames, crossed, token));
    PopKeeps(rest, TopIs(rest, InProperty));
  }

  lemma {:induction false} ClosedLawful(s: State, token: Token, next: Option<TokenKind>)
    ensures Lawful(s.frames, ClosedPart(s, token, next), token.start)
  {
    var before := Before(s.frames, s.crossedNewline, token);
    BeforeKeeps(s.frames, s.crossedNewline, token);
    SameLawful(before, token.start);
    CloseForLawful(before, s.crossedNewline, token, Continues(s.frames, s.crossedNewline, token, next));
    FromLawful(s.frames, before, ClosedPart(s, token, next), token.start);
  }

  lemma {:induction false} LastLawful(s: State, token: Token, next: Option<TokenKind>)
    ensures Lawful(OpenedPart(s, token, next).frames, LastPart(s, token, next), token.start)
    ensures LastPart(s, token, next).marks == [] && LastPart(s, token, next).excess == 0
  {
    var inside := OpenedPart(s, token, next).frames;
    SameLawful(inside, token.start);
    OpenForLawful(inside, token);
    OpenSilent(inside, token);
  }

  lemma {:induction false} StepLawful(s: State, token: Token, next: Option<TokenKind>)
    ensures Lawful(s.frames, StepEffect(s, token, next), token.start)
  {
    var at := token.start;
    var closed, inside := ClosedPart(s, token, next), OpenedPart(s, token, next);
    ClosedLawful(s, token, next);
    OpenPendingLawful(closed.frames, s.pending, token);
    LastLawful(s, token, next);
    MarksLawful(s.frames, closed, inside, at);
    JoinLawful(s.frames, closed.(frames := inside.frames, marks := closed.marks + inside.marks),
               LastPart(s, token, next), at);
  }

  // ----- Whole runs -----

  /** The state and output after `n` tokens, with the totals of dropped and excess frames. */
  datatype Run = Run(state: State, result: seq<Marked>, dropped: nat, excess: nat, ended: bool)

  function NextKind(tokens: seq<Token>, i: nat): Option<TokenKind> {
    if i + 1 < |tokens| then Some(tokens[i + 1].kind) else None
  }

  function After(r: Run, token: Token, next: Option<TokenKind>): Run {
    if r.ended then r
    else if token.kind.Newline? then r.(state := r.state.(crossedNewline := true))
    else if token.kind.Eof? then
      var e := CloseDownTo(r.state.frames, 0, token.start);
      Run(r.state.(frames := []), r.result + e.marks + [Raw(token)], r.dropped, r.excess, true)
    else
      var e := StepEffect(r.state, token, next);
      Run(StepState(r.state, token, next), r.result + e.marks + [Raw(token)], r.dropped + e.dropped,
          r.excess + e.excess, false)
  }

  function RunOf(tokens: seq<Token>, n: nat): Run
    requires n <= |tokens|
  {
    if n == 0 then Run(State([], None, false), [], 0, 0, false)
    else After(RunOf(tokens, n - 1), tokens[n - 1], NextKind(tokens, n - 1))
  }

  /** In every run: block indents increase up the stack, and starts minus ends are the open blocks
      plus the dropped minus the excess ones. Without excess no end comes before its start. */
  ghost predicate Sound(r: Run) {
    Increasing(r.state.frames) && Accounted(r) && (r.ended ==> r.state.frames == []) && PlacedForAny(r.result)
  }

  /** Starts and ends are accounted for. */
  predicate Accounted(r: Run) {
    Depth(r.result) == Blocks(r.state.frames) + r.dropped - r.excess && (r.excess == 0 ==> NeverNegative(r.result))
  }

  /** No marker is left waiting for the next raw token. */
  ghost predicate PlacedForAny(r: seq<Marked>) {
    forall next :: Placed(r, next)
  }

  lemma {:induction false} PlacedAfter(r: seq<Marked>, marks: seq<Marked>, token: Token)
    requires PlacedForAny(r) && MarksAt(marks, token.start)
    ensures Placed(r + marks, token.start) && PlacedForAny(r + marks + [Raw(token)])
    ensures Raws(r + marks + [Raw(token)]) == Raws(r) + [token]
    decreases |marks|
  {
    var all := r + marks + [Raw(token)];
    assert all[..|all| - 1] == r + marks;
    MarksPlaced(r, marks, token.start);
  }

  lemma {:induction false} MarksPlaced(r: seq<Marked>, marks: seq<Marked>, at: nat)
    requires PlacedForAny(r) && MarksAt(marks, at)
    ensures Placed(r + marks, at) && Raws(r + marks) == Raws(r)
    decreases |marks|
  {
    if marks == [] {
      assert r + marks == r;
    } else {
      var n := |marks| - 1;
      assert (r + marks)[..|r + marks| - 1] == r + marks[..n];
      MarksPlaced(r, marks[..n], at);
    }
  }

  lemma {:induction false} NeverNegativeAfter(r: seq<Marked>, marks: seq<Marked>, x: Marked, base: int)
    requires NeverNegative(r) && Above(marks, base) && base <= Depth(r) && x.Raw?
    ensures NeverNegative(r + marks + [x])
  {
    AboveJoin(r, marks, 0, base);
    var all := r + marks + [x];
    assert all[..|all| - 1] == r + marks;
    AboveLast(r + marks, 0);
  }

  lemma {:induction false} AboveLast(r: seq<Marked>, base: int)
    requires Above(r, base)
    ensures Depth(r) + base >= 0
  {
  }

  lemma {:induction false} SoundAfter(r: Run, token: Token, next: Option<TokenKind>)
    requires Sound(r)
    ensures Sound(After(r, token, next))
    ensures Raws(After(r, token, next).result)
         == if r.ended || token.kind.Newline? then Raws(r.result) else Raws(r.result) + [token]
  {
    if !r.ended && !token.kind.Newline? {
      if token.kind.Eof? {
        CloseDownToLawful(r.state.frames, 0, token.start);
        Emitted(r, CloseDownTo(r.state.frames, 0, token.start), token, r.state.(frames := []), true);
      } else {
        StepLawful(r.state, token, next);
        Emitted(r, StepEffect(r.state, token, next), token, StepState(r.state, token, next), false);
      }
    }
  }

  /** A lawful effect and the token itself keep a run sound. */
  lemma {:induction false} Emitted(r: Run, e: Effect, token: Token, state: State, ended: bool)
    requires Sound(r) && Lawful(r.state.frames, e, token.start) && state.frames == e.frames
             && (ended ==> e.frames == [])
    ensures var all := r.result + e.marks + [Raw(token)];
            Sound(Run(state, all, r.dropped + e.dropped, r.excess + e.excess, ended))
                && Raws(all) == Raws(r.result) + [token]
  {
    PlacedAfter(r.result, e.marks, token);
    var all := r.result + e.marks + [Raw(token)];
    assert all[..|all| - 1] == r.result + e.marks;
    DepthJoin(r.result, e.marks);
    if r.excess + e.excess == 0 { NeverNegativeAfter(r.result, e.marks, Raw(token), Blocks(r.state.frames)); }
  }

  lemma {:induction false} NextSound(tokens: seq<Token>, n: nat, r: Run, next: Run)
    requires 0 < n <= |tokens| && r == RunOf(tokens, n - 1) && next == RunOf(tokens, n) && Sound(r)
    ensures Sound(next)
  {
    SoundAfter(r, tokens[n - 1], NextKind(tokens, n - 1));
    assert next == After(r, tokens[n - 1], NextKind(tokens, n - 1));
  }

  lemma {:induction false} SoundAt(tokens: seq<Token>, n: nat, r: Run)
    requires n <= |tokens| && r == RunOf(tokens, n)
    ensures Sound(r)
  {
    if n > 0 {
      var before := RunOf(tokens, n - 1);
      SoundAt(tokens, n - 1, before);
      NextSound(tokens, n, before, r);
    }
  }

  lemma {:induction false} RunSound(tokens: seq<Token>, n: nat)
    requires n <= |tokens|
    ensures Sound(RunOf(tokens, n))
  {
    SoundAt(tokens, n, RunOf(tokens, n));
  }

  predicate HasEof(tokens: seq<Token>) {
    tokens != [] && (tokens[|tokens| - 1].kind.Eof? || HasEof(tokens[..|tokens| - 1]))
  }

  lemma {:induction false} EofMeans(tokens: seq<Token>)
    ensures HasEof(tokens) <==> exists i :: 0 <= i < |tokens| && tokens[i].kind.Eof?
  {
    if tokens != [] {
      var n := |tokens| - 1;
      EofMeans(tokens[..n]);
      if i :| 0 <= i < n && tokens[i].kind.Eof? { assert tokens[..n][i].kind.Eof?; }
      if j :| 0 <= j < n && tokens[..n][j].kind.Eof? { assert tokens[j].kind.Eof?; }
    }
  }

  /** Removing the markers gives back the visible input. */
  lemma {:induction false} RunConserves(tokens: seq<Token>, n: nat)
    requires n <= |tokens|
    ensures Raws(RunOf(tokens, n).result) == Visible(tokens[..n])
    ensures RunOf(tokens, n).ended <==> HasEof(tokens[..n])
  {
    if n > 0 {
      RunConserves(tokens, n - 1);
      RunSound(tokens, n - 1);
      assert tokens[..n] == tokens[..n - 1] + [tokens[n - 1]];
      ConservedAfter(RunOf(tokens, n - 1), tokens[..n - 1], tokens[n - 1], NextKind(tokens, n - 1));
    }
  }

  lemma {:induction false} ConservedAfter(r: Run, done: seq<Token>, token: Token, next: Option<TokenKind>)
    requires Sound(r) && Raws(r.result) == Visible(done) && (r.ended <==> HasEof(done))
    ensures Raws(After(r, token, next).result) == Visible(done + [token])
    ensures After(r, token, next).ended <==> HasEof(done + [token])
  {
    SoundAfter(r, token, next);
    assert (done + [token])[..|done|] == done;
    EofMeans(done);
    if r.ended { VisiblePast(done, token); } else { VisibleNext(done, token); }
  }

  lemma {:induction false} VisibleNext(done: seq<Token>, token: Token)
    requires forall i :: 0 <= i < |done| ==> !done[i].kind.Eof?
    ensures Visible(done + [token]) == if token.kind.Newline? then Visible(done) else Visible(done) + [token]
  {
    if done == [] {
      assert [token][1..] == [];
      assert (done + [token])[0] == token && (done + [token])[1..] == [];
    } else {
      assert (done + [token])[1..] == done[1..] + [token] && (done + [token])[0] == done[0];
      VisibleNext(done[1..], token);
    }
  }

  lemma {:induction false} VisiblePast(done: seq<Token>, token: Token)
    requires exists i :: 0 <= i < |done| && done[i].kind.Eof?
    ensures Visible(done + [token]) == Visible(done)
  {
    assert (done + [token])[1..] == done[1..] + [token] && (done + [token])[0] == done[0];
    if !done[0].kind.Eof? {
      var i :| 0 <= i < |done| && done[i].kind.Eof?;
      assert done[1..][i - 1] == done[i];
      VisiblePast(done[1..], token);
    }
  }

  /** After the end of file, starts minus ends are the dropped blocks minus the excess ends. */
  lemma BalancedAtEnd(tokens: seq<Token>)
    ensures var r := RunOf(tokens, |tokens|);
            r.ended ==> Depth(r.result) == r.dropped - r.excess
  {
    RunSound(tokens, |tokens|);
  }

  // ----- The loop -----

  class Layouter {
    var frames: seq<Frame>
    var result: seq<Marked>
    var pending: Option<BlockKind>
    var crossedNewline: bool

    constructor ()
      ensures frames == [] && result == [] && pending == None && !crossedNewline
    {
      frames, result, pending, crossedNewline := [], [], None, false;
    }

    function Current(): State
      reads this
    {
      State(frames, pending, crossedNewline)
    }

    /** `close_indented`, `close_for_where` and the outdent loops. */
    method CloseWhile(closing: Closing, at: nat)
      modifies this`frames, this`result
      ensures var e := CloseBlocks(old(frames), closing, at); frames == e.frames && result == old(result) + e.marks
    {
      ghost var count := 0;
      while frames != [] && Closes(closing, frames[|frames| - 1])
        invariant Remaining(frames, closing) == Remaining(old(frames), closing)
        invariant count == |old(frames)| - |frames| && result == old(result) + Ends(count, at)
        decreases |frames|
      {
        frames := frames[..|frames| - 1];
        result := result + [End(at)];
        count := count + 1;
        assert Ends(count, at) == Ends(count - 1, at) + [End(at)];
      }
    }

    /** The loop of `else` and of the end of file. */
    method CloseAbove(index: nat, at: nat)
      requires index <= |frames|
      modifies this`frames, this`result
      ensures var e := CloseDownTo(old(frames), index, at); frames == e.frames && result == old(result) + e.marks
    {
      ghost var start := frames;
      assert start[..|start|] == start && start[|start|..] == [];
      while |frames| > index
        invariant index <= |frames| <= |start| && frames == start[..|frames|]
        invariant result == old(result) + Ends(Blocks(start[|frames|..]), at)
        decreases |frames|
      {
        ghost var n := |frames| - 1;
        ghost var count := Blocks(start[n + 1..]);
        assert start[n..] == [start[n]] + start[n + 1..];
        BlocksJoin([start[n]], start[n + 1..]);
        assert [start[n]][..0] == [];
        assert Ends(count + 1, at) == Ends(count, at) + [End(at)];
        if frames[|frames| - 1].kind.InBlock? { result := result + [End(at)]; }
        frames := frames[..|frames| - 1];
      }
    }

    /** `close_through_let` */
    method CloseLet(at: nat)
      modifies this`frames, this`result
      ensures var e := CloseThroughLet(old(frames), at); frames == e.frames && result == old(result) + e.marks
    {
      var index := Innermost(frames, InBlock(LetBlock));
      if index.Some? {
        ghost var start, count := frames, 0;
        assert start[..|start|] == start;
        while |frames| > index.value
          invariant index.value <= |frames| <= |start| && frames == start[..|frames|]
          invariant count == |start| - |frames| && result == old(result) + Ends(count, at)
          decreases |frames|
        {
          frames := frames[..|frames| - 1];
          result := result + [End(at)];
          count := count + 1;
          assert Ends(count, at) == Ends(count - 1, at) + [End(at)];
        }
      }
    }

    method Drop(kind: FrameKind)
      modifies this`frames
      ensures frames == Truncate(old(frames), kind).frames
    {
      var index := Innermost(frames, kind);
      if index.Some? { frames := frames[..index.value]; }
    }

    method CloseOrOpenTick(indent: nat, at: nat)
      modifies this`frames, this`result
      ensures var e := CloseTick(old(frames), indent, at); frames == e.frames && result == old(result) + e.marks
    {
      if TopIs(Remaining(frames, Always), InTick) {
        CloseWhile(Always, at);
        frames := frames[..|frames| - 1];
      } else {
        frames := frames + [Frame(indent, InTick)];
      }
    }

    method CloseAtComma(indent: nat, at: nat)
      modifies this`frames, this`result
      ensures var e := CloseComma(old(frames), indent, at); frames == e.frames && result == old(result) + e.marks
    {
      CloseWhile(Always, at);
      if TopIs(frames, InBrace) { frames := frames + [Frame(indent, InProperty)]; }
    }

    method CloseDelimiter(kind: FrameKind, at: nat)
      modifies this`frames, this`result
      ensures var e := CloseThenTruncate(old(frames), kind, at); frames == e.frames && result == old(result) + e.marks
    {
      CloseWhile(Always, at);
      Drop(kind);
    }

    method CloseAtElse(indent: nat, at: nat)
      modifies this`frames, this`result
      ensures var e := CloseElse(old(frames), crossedNewline, indent, at);
              frames == e.frames && result == old(result) + e.marks
    {
      var boundary := Innermost(frames, InThen);
      if boundary.Some? { CloseAbove(boundary.value, at); }
      else if crossedNewline { CloseWhile(Outdented(indent), at); }
    }

    method Close(token: Token, continues: bool)
      modifies this`frames, this`result
      ensures var e := CloseFor(old(frames), crossedNewline, token, continues);
              frames == e.frames && result == old(result) + e.marks
    {
      var at, indent := token.start, token.indent;
      if Closer(token.kind).Some? {
        CloseDelimiter(Closer(token.kind).value, at);
      } else if token.kind.Backtick? {
        CloseOrOpenTick(indent, at);
      } else if token.kind.Comma? {
        CloseAtComma(indent, at);
      } else if token.kind.Where? {
        if TopIs(frames, InDeclarationHead) { frames := frames[..|frames| - 1]; }
        CloseWhile(DoOrOutdented(indent), at);
      } else if token.kind.In? {
        CloseLet(at);
      } else if token.kind.Else? {
        CloseAtElse(indent, at);
      } else if token.kind.Arrow? || token.kind.Equals? {
        CloseDoAndBinders(at);
      } else if crossedNewline {
        StartLine(token, continues);
      }
    }

    method CloseDoAndBinders(at: nat)
      modifies this`frames, this`result
      ensures var e := CloseBinders(old(frames), at); frames == e.frames && result == old(result) + e.marks
    {
      CloseWhile(OnlyDo, at);
      if TopBinders(frames) { frames := frames[..|frames| - 1]; }
    }

    method StartLine(token: Token, continues: bool)
      modifies this`frames, this`result
      ensures var e := NewLine(old(frames), token, continues); frames == e.frames && result == old(result) + e.marks
    {
      CloseWhile(Outdented(token.indent), token.start);
      if !continues && TopBlock(frames) && frames[|frames| - 1].indent == token.indent {
        result := result + [Separator(token.start)];
        if TopIs(frames, InBlock(OfBlock)) { frames := frames + [Frame(token.indent, InCaseBinders)]; }
      }
    }

    method OpenBlock(token: Token)
      modifies this`frames, this`result, this`pending
      ensures var e := OpenPending(old(frames), old(pending), token);
              frames == e.frames && result == old(result) + e.marks
      ensures pending == None
    {
      if pending.Some? {
        var kind := pending.value;
        pending := None;
        var enclosing := Enclosing(frames);
        if enclosing.None? || token.indent > enclosing.value.indent {
          result := result + [Start(token.start)];
          frames := frames + [Frame(token.indent, InBlock(kind))];
          if kind.OfBlock? { frames := frames + [Frame(token.indent, InCaseBinders)]; }
        }
      }
    }

    method Open(token: Token)
      modifies this`frames
      ensures frames == OpenFor(old(frames), token).frames
    {
      var indent := token.indent;
      match token.kind
      case Data => if TopBlock(frames) { frames := frames + [Frame(indent, InDeclarationHead)]; }
      case Class => if TopBlock(frames) { frames := frames + [Frame(indent, InDeclarationHead)]; }
      case Backslash => frames := frames + [Frame(indent, InLambdaBinders)];
      case LParen => frames := frames + [Frame(indent, InParen)];
      case LBracket => frames := frames + [Frame(indent, InBracket)];
      case LBrace => frames := frames + [Frame(indent, InBrace), Frame(indent, InProperty)];
      case Case => frames := frames + [Frame(indent, InCase)];
      case If => frames := frames + [Frame(indent, InIf)];
      case Then =>
        Drop(InIf);
        frames := frames + [Frame(indent, InThen)];
      case Pipe =>
        if TopIs(frames, InCaseBinders) { frames := frames[..|frames| - 1]; }
        if Guardable(frames) { frames := frames + [Frame(indent, InGuard)]; }
      case _ =>
    }

    /** One visible token other than the end of file. */
    method Step(token: Token, next: Option<TokenKind>)
      modifies this
      ensures Current() == StepState(old(Current()), token, next)
      ensures result == old(result) + StepEffect(old(Current()), token, next).marks + [Raw(token)]
    {
      ghost var was, written := Current(), result;
      var property := CloseLine(token, next);
      crossedNewline := false;
      OpenBlock(token);
      if !property { Open(token); }
      OpenSilent(OpenedPart(was, token, next).frames, token);
      Joined(written, ClosedPart(was, token, next).marks, OpenedPart(was, token, next).marks);
      result := result + [Raw(token)];
      pending := if property then None else BlockAfter(token.kind);
    }

    /** Everything before the token opens something. */
    method CloseLine(token: Token, next: Option<TokenKind>) returns (property: bool)
      modifies this`frames, this`result
      ensures var e := ClosedPart(old(Current()), token, next); frames == e.frames && result == old(result) + e.marks
      ensures property == IsProperty(old(frames), crossedNewline, token)
    {
      var continues := Continues(frames, crossedNewline, token, next);
      property := EndFrames(token);
      if !property { Close(token, continues); }
    }

    /** Frames that end before the token is looked at. */
    method EndFrames(token: Token) returns (property: bool)
      modifies this`frames
      ensures frames == Before(old(frames), crossedNewline, token)
              && property == IsProperty(old(frames), crossedNewline, token)
    {
      if EndsHead(frames, crossedNewline, token) { frames := frames[..|frames| - 1]; }
      var propertyPending := TopIs(frames, InProperty);
      if propertyPending { frames := frames[..|frames| - 1]; }
      property := propertyPending && !token.kind.RBrace? && !token.kind.Pipe?;
    }

    /** One turn of the main loop. */
    method Advance(ghost r: Run, token: Token, next: Option<TokenKind>) returns (ended: bool)
      requires !r.ended && Current() == r.state && result == r.result
      modifies this
      ensures var r' := After(r, token, next);
              ended == r'.ended && result == r'.result && (!ended ==> Current() == r'.state)
    {
      ended := false;
      if token.kind.Newline? {
        crossedNewline := true;
      } else if token.kind.Eof? {
        Finish(token);
        ended := true;
      } else {
        Step(token, next);
      }
    }

    method Finish(token: Token)
      modifies this`frames, this`result
      ensures frames == [] && result == old(result) + CloseDownTo(old(frames), 0, token.start).marks + [Raw(token)]
    {
      CloseAbove(0, token.start);
      result := result + [Raw(token)];
    }
  }

  lemma {:induction false} Joined(a: seq<Marked>, b: seq<Marked>, c: seq<Marked>)
    ensures a + b + c == a + (b + c)
  {
  }

  /** `add_layout`: removing the markers gives back the visible input, every marker is at the next raw
      token, and the run is the one whose laws are stated above. */
  method AddLayout(tokens: seq<Token>) returns (result: seq<Marked>)
    ensures result == RunOf(tokens, |tokens|).result
    ensures Raws(result) == Visible(tokens) && PlacedForAny(result)
  {
    result := Laid(tokens);
    RunSound(tokens, |tokens|);
    RunConserves(tokens, |tokens|);
    assert tokens[..|tokens|] == tokens;
  }

  method Laid(tokens: seq<Token>) returns (result: seq<Marked>)
    ensures result == RunOf(tokens, |tokens|).result
  {
    var layouter := new Layouter();
    ghost var r := RunOf(tokens, 0);
    for i := 0 to |tokens|
      invariant fresh(layouter) && r == RunOf(tokens, i) && !r.ended
      invariant layouter.Current() == r.state && layouter.result == r.result
    {
      var ended := layouter.Advance(r, tokens[i], NextKind(tokens, i));
      r := RunNext(tokens, i, r);
      if ended {
        EndedStays(tokens, i + 1, |tokens|);
        return layouter.result;
      }
    }
    result := layouter.result;
  }

  lemma {:induction false} RunNext(tokens: seq<Token>, i: nat, r: Run) returns (r': Run)
    requires i < |tokens| && r == RunOf(tokens, i)
    ensures r' == RunOf(tokens, i + 1) && r' == After(r, tokens[i], NextKind(tokens, i))
  {
    r' := RunOf(tokens, i + 1);
  }

  lemma {:induction false} EndedStays(tokens: seq<Token>, i: nat, n: nat)
    requires i <= n <= |tokens| && RunOf(tokens, i).ended
    ensures RunOf(tokens, n) == RunOf(tokens, i)
  {
    if i < n { EndedStays(tokens, i, n - 1); }
  }
}
