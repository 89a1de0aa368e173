/** What a token does to blocks and markers (crates/psrs-syntax/src/layout.rs:70-352), stated over the stack that it
    meets, its kind and its column: which blocks it ends, when it separates two items of a block, and when a block
    starts before it.
 */
module OffsideLaws {
  import opened Lists
  import opened OffsideLayout
  import opened OffsideBalance

  // ----- The stack that a token meets -----

  predicate Top(frames: seq<Frame>, kind: FrameKind) {
    frames != [] && frames[|frames| - 1].kind == kind
  }

  /** A declaration head ends at the first line that is not indented past it. */
  function WithoutHead(frames: seq<Frame>, crossed: bool, column: nat): seq<Frame> {
    if crossed && Top(frames, InDeclarationHead) && column <= frames[|frames| - 1].indent then frames[..|frames| - 1]
    else frames
  }

  /** The token is a field name, which never opens or closes anything. */
  predicate FieldName(frames: seq<Frame>, crossed: bool, token: Token) {
    Top(WithoutHead(frames, crossed, token.indent), InProperty) && !token.kind.RBrace? && !token.kind.Pipe?
  }

  function Standing(frames: seq<Frame>, crossed: bool, column: nat): seq<Frame> {
    var rest := WithoutHead(frames, crossed, column);
    if Top(rest, InProperty) then rest[..|rest| - 1] else rest
  }

  // ----- The blocks that a token ends -----

  /** Exactly the frames from `kept` on are the topmost ones that are `such`. */
  ghost predicate OnTop(frames: seq<Frame>, kept: nat, such: Frame -> bool) {
    && kept <= |frames| && (forall i :: kept <= i < |frames| ==> such(frames[i]))
    && (kept > 0 ==> !such(frames[kept - 1]))
  }

  /** `at` is the last frame of the kind. */
  predicate LastOf(frames: seq<Frame>, kind: FrameKind, at: nat) {
    at < |frames| && frames[at].kind == kind && forall i :: at < i < |frames| ==> frames[i].kind != kind
  }

  predicate Without(frames: seq<Frame>, kind: FrameKind) {
    forall f <- frames :: f.kind != kind
  }

  predicate AnyBlock(f: Frame) {
    f.kind.InBlock?
  }

  predicate BlockOnTop(frames: seq<Frame>) {
    frames != [] && AnyBlock(frames[|frames| - 1])
  }

  predicate OpenDo(f: Frame) {
    f.kind == InBlock(DoBlock)
  }

  predicate BlockPast(column: nat, f: Frame) {
    f.kind.InBlock? && column < f.indent
  }

  predicate DoOrBlockFrom(column: nat, f: Frame) {
    f.kind.InBlock? && (f.kind.kind.DoBlock? || column <= f.indent)
  }

  predicate Binders(f: Frame) {
    f.kind.InGuard? || f.kind.InCaseBinders? || f.kind.InLambdaBinders?
  }

  /** The blocks on top end, and so does what the bracket was opened with. */
  ghost predicate EndsBracket(frames: seq<Frame>, kind: FrameKind, kept: nat, ends: nat) {
    exists top: nat :: OnTop(frames, top, AnyBlock) && ends == |frames| - top
                  && (LastOf(frames[..top], kind, kept) || (Without(frames[..top], kind) && kept == top))
  }

  ghost predicate EndsTick(frames: seq<Frame>, kept: nat, ends: nat) {
    exists top: nat :: OnTop(frames, top, AnyBlock)
                  && if top > 0 && frames[top - 1].kind.InTick? then kept == top - 1 && ends == |frames| - top
                     else kept == |frames| && ends == 0
  }

  ghost predicate EndsBinders(frames: seq<Frame>, kept: nat, ends: nat) {
    exists top: nat :: OnTop(frames, top, OpenDo) && ends == |frames| - top
                  && kept == if top > 0 && Binders(frames[top - 1]) then top - 1 else top
  }

  ghost predicate EndsOnTop(frames: seq<Frame>, such: Frame -> bool, kept: nat, ends: nat) {
    OnTop(frames, kept, such) && ends == |frames| - kept
  }

  predicate EndsNothing(frames: seq<Frame>, kept: nat, ends: nat) {
    kept == |frames| && ends == 0
  }

  /** The first token of a line ends the blocks that are indented past it. */
  ghost predicate EndsOutdented(frames: seq<Frame>, crossed: bool, column: nat, kept: nat, ends: nat) {
    if crossed then EndsOnTop(frames, f => BlockPast(column, f), kept, ends) else EndsNothing(frames, kept, ends)
  }

  /** Of the frames the first `kept` are left, and `ends` end markers are written. */
  ghost predicate Leaves(frames: seq<Frame>, crossed: bool, token: Token, kept: nat, ends: nat) {
    var column := token.indent;
    match token.kind
    case RParen => EndsBracket(frames, InParen, kept, ends)
    case RBracket => EndsBracket(frames, InBracket, kept, ends)
    case RBrace => EndsBracket(frames, InBrace, kept, ends)
    case Of => EndsBracket(frames, InCase, kept, ends)
    case Comma => EndsOnTop(frames, AnyBlock, kept, ends)
    case Backtick => EndsTick(frames, kept, ends)
    case Where =>
      var rest := if Top(frames, InDeclarationHead) then frames[..|frames| - 1] else frames;
      EndsOnTop(rest, f => DoOrBlockFrom(column, f), kept, ends)
    case In =>
      if Without(frames, InBlock(LetBlock)) then EndsNothing(frames, kept, ends)
      else LastOf(frames, InBlock(LetBlock), kept) && ends == |frames| - kept
    case Else =>
      if Without(frames, InThen) then EndsOutdented(frames, crossed, column, kept, ends)
      else LastOf(frames, InThen, kept) && ends == Blocks(frames[kept..])
    case Arrow => EndsBinders(frames, kept, ends)
    case Equals => EndsBinders(frames, kept, ends)
    case _ => EndsOutdented(frames, crossed, column, kept, ends)
  }

  // ----- Separators and starts -----

  /** Tokens that close something, and those that continue the line before. */
  predicate NeverSeparated(kind: TokenKind) {
    || kind.RParen? || kind.RBracket? || kind.RBrace? || kind.Of? || kind.Comma? || kind.Backtick? || kind.Where?
    || kind.In? || kind.Else? || kind.Arrow? || kind.Equals?
  }

  predicate ContinuesLine(kind: TokenKind) {
    kind.Operator? || kind.DotDot? || kind.Then? || kind.Pipe?
  }

  /** A negative number that starts an alternative of a case. */
  predicate StartsAlternative(frames: seq<Frame>, crossed: bool, token: Token, next: Option<TokenKind>) {
    && crossed && token.kind == Operator(true) && next == Some(Number)
    && Top(frames, InBlock(OfBlock)) && frames[|frames| - 1].indent == token.indent
  }

  /** A separator stands before a token that starts a line, continues nothing, and is at the column of the block on
      top of what is left open. */
  predicate SeparatorDue(s: State, token: Token, next: Option<TokenKind>, left: seq<Frame>) {
    && s.crossedNewline && !FieldName(s.frames, s.crossedNewline, token) && !NeverSeparated(token.kind)
    && (ContinuesLine(token.kind) ==> StartsAlternative(s.frames, s.crossedNewline, token, next))
    && BlockOnTop(left) && left[|left| - 1].indent == token.indent
  }

  /** A block starts before the token after its keyword, if that is indented past every block left open. */
  predicate StartDue(pending: Option<BlockKind>, column: nat, left: seq<Frame>) {
    pending.Some? && forall f <- left :: f.kind.InBlock? ==> f.indent < column
  }

  /** The block that is to follow one of the five keywords, unless it is a field name. */
  function Announced(frames: seq<Frame>, crossed: bool, token: Token): Option<BlockKind> {
    if FieldName(frames, crossed, token) then None
    else if token.kind == Where then Some(WhereBlock)
    else if token.kind == Let then Some(LetBlock)
    else if token.kind == Of then Some(OfBlock)
    else if token.kind == Do then Some(DoBlock)
    else if token.kind == Ado then Some(AdoBlock)
    else None
  }

  // ----- The stack that a token leaves -----

  /** What a token puts on the stack when it closes. */
  function Replaced(left: seq<Frame>, all: nat, token: Token, name: bool, separator: bool): seq<Frame> {
    if separator && Top(left, InBlock(OfBlock)) then left + [Frame(token.indent, InCaseBinders)]
    else if name then left
    else if token.kind.Backtick? && |left| == all then left + [Frame(token.indent, InTick)]
    else if token.kind.Comma? && Top(left, InBrace) then left + [Frame(token.indent, InProperty)]
    else left
  }

  function Started(frames: seq<Frame>, pending: Option<BlockKind>, column: nat, start: bool): seq<Frame> {
    if !start || pending.None? then frames
    else if pending == Some(OfBlock) then frames + [Frame(column, InBlock(OfBlock)), Frame(column, InCaseBinders)]
    else frames + [Frame(column, InBlock(pending.value))]
  }

  predicate LastBlock(frames: seq<Frame>, at: nat) {
    at < |frames| && AnyBlock(frames[at]) && forall i :: at < i < |frames| ==> !AnyBlock(frames[i])
  }

  /** A guard belongs to a block of alternatives, bindings or declarations. */
  predicate AllowsGuards(f: Frame) {
    f.kind == InBlock(OfBlock) || f.kind == InBlock(LetBlock) || f.kind == InBlock(WhereBlock)
  }

  ghost predicate InGuardable(frames: seq<Frame>) {
    exists at: nat :: LastBlock(frames, at) && AllowsGuards(frames[at])
  }

  ghost predicate Opened(frames: seq<Frame>, token: Token, after: seq<Frame>) {
    var column := token.indent;
    match token.kind
    case Then =>
      if Without(frames, InIf) then after == frames + [Frame(column, InThen)]
      else exists at: nat :: LastOf(frames, InIf, at) && after == frames[..at] + [Frame(column, InThen)]
    case Pipe =>
      var rest := if Top(frames, InCaseBinders) then frames[..|frames| - 1] else frames;
      after == if !Top(rest, InDeclarationHead) && InGuardable(rest) then rest + [Frame(column, InGuard)] else rest
    case LBrace => after == frames + [Frame(column, InBrace), Frame(column, InProperty)]
    case Data => after == if BlockOnTop(frames) then frames + [Frame(column, InDeclarationHead)] else frames
    case Class => after == if BlockOnTop(frames) then frames + [Frame(column, InDeclarationHead)] else frames
    case Backslash => after == frames + [Frame(column, InLambdaBinders)]
    case LParen => after == frames + [Frame(column, InParen)]
    case LBracket => after == frames + [Frame(column, InBracket)]
    case Case => after == frames + [Frame(column, InCase)]
    case If => after == frames + [Frame(column, InIf)]
    case _ => after == frames
  }

  // ----- One token -----

  /** How many frames are left and how many ends are written, whether there is a separator, and whether a start. */
  datatype Account = Account(kept: nat, ends: nat, separator: bool, start: bool)

  function Markers(a: Account, at: nat): seq<Marked> {
    seq(a.ends, _ => End(at)) + (if a.separator then [Separator(at)] else []) + (if a.start then [Start(at)] else [])
  }

  ghost predicate Explains(a: Account, s: State, token: Token, next: Option<TokenKind>, marks: seq<Marked>, s': State) {
    var name := FieldName(s.frames, s.crossedNewline, token);
    var frames := Standing(s.frames, s.crossedNewline, token.indent);
    && a.kept <= |frames| && marks == Markers(a, token.start)
    && (if name then EndsNothing(frames, a.kept, a.ends)
        else Leaves(frames, s.crossedNewline, token, a.kept, a.ends))
    && (a.separator <==> SeparatorDue(s, token, next, frames[..a.kept]))
    && (a.start <==> StartDue(s.pending, token.indent, frames[..a.kept]))
    && (var inside := Started(Replaced(frames[..a.kept], |frames|, token, name, a.separator), s.pending, token.indent,
                              a.start);
        if name then s'.frames == inside else Opened(inside, token, s'.frames))
    && s'.pending == Announced(s.frames, s.crossedNewline, token) && !s'.crossedNewline
  }

  // ----- The parts of a step, explained -----

  lemma {:induction false} EndsAre(count: nat, at: nat)
    ensures Ends(count, at) == seq(count, _ => End(at))
  {
    if count > 0 {
      EndsAre(count - 1, at);
      assert seq(count, _ => End(at)) == seq(count - 1, _ => End(at)) + [End(at)];
    }
  }

  lemma {:induction false} RemainingOnTop(frames: seq<Frame>, closing: Closing, such: Frame -> bool)
    requires forall f <- frames :: such(f) <==> OffsideLayout.Closes(closing, f)
    ensures OnTop(frames, |Remaining(frames, closing)|, such)
  {
    RemainingIs(frames, closing);
    var rest := Remaining(frames, closing);
    if rest != [] { assert rest[|rest| - 1] == frames[|rest| - 1]; }
  }

  lemma {:induction false} InnermostLast(frames: seq<Frame>, kind: FrameKind)
    ensures Innermost(frames, kind).None? <==> Without(frames, kind)
    ensures Innermost(frames, kind).Some? ==> LastOf(frames, kind, Innermost(frames, kind).value)
  {
    if frames != [] && frames[|frames| - 1].kind != kind {
      var n := |frames| - 1;
      InnermostLast(frames[..n], kind);
      assert frames == frames[..n] + [frames[n]];
    }
  }

  lemma {:induction false} EnclosingBelow(frames: seq<Frame>, column: nat)
    requires Increasing(frames)
    ensures (Enclosing(frames).Some? ==> Enclosing(frames).value.indent < column)
            <==> forall f <- frames :: f.kind.InBlock? ==> f.indent < column
  {
    if frames != [] {
      var n := |frames| - 1;
      assert frames == frames[..n] + [frames[n]];
      EnclosingBelow(frames[..n], column);
      if frames[n].kind.InBlock? && Enclosing(frames[..n]).Some? {
        assert Deeper(frames[..n], frames[n]);
        EnclosingBelow(frames[..n], frames[n].indent);
      }
    }
  }

  /** What a token closes, with the separator that may follow. */
  ghost predicate Closing(a: Account, frames: seq<Frame>, crossed: bool, token: Token, continues: bool, e: Effect) {
    && a.kept <= |frames| && !a.start && Leaves(frames, crossed, token, a.kept, a.ends)
    && e.marks == Markers(a, token.start)
    && e.frames == Replaced(frames[..a.kept], |frames|, token, false, a.separator)
    && (a.separator <==> crossed && !NeverSeparated(token.kind) && !continues && BlockOnTop(frames[..a.kept])
                         && frames[a.kept - 1].indent == token.indent)
  }

  lemma {:induction false} BracketClosing(frames: seq<Frame>, crossed: bool, token: Token, continues: bool)
    returns (a: Account)
    requires Closer(token.kind).Some?
    ensures Closing(a, frames, crossed, token, continues, CloseFor(frames, crossed, token, continues))
  {
    var kind := Closer(token.kind).value;
    var closed := CloseBlocks(frames, Always, token.start);
    var top := |closed.frames|;
    RemainingOnTop(frames, Always, AnyBlock);
    InnermostLast(closed.frames, kind);
    EndsAre(|frames| - top, token.start);
    assert closed.frames == frames[..top];
    var cut := Truncate(closed.frames, kind).frames;
    a := Account(|cut|, |frames| - top, false, false);
    assert cut == frames[..|cut|];
    assert EndsBracket(frames, kind, a.kept, a.ends);
  }

  lemma {:induction false} CommaClosing(frames: seq<Frame>, crossed: bool, token: Token, continues: bool)
    returns (a: Account)
    requires token.kind.Comma?
    ensures Closing(a, frames, crossed, token, continues, CloseFor(frames, crossed, token, continues))
  {
    var rest := Remaining(frames, Always);
    RemainingOnTop(frames, Always, AnyBlock);
    EndsAre(|frames| - |rest|, token.start);
    a := Account(|rest|, |frames| - |rest|, false, false);
  }

  lemma {:induction false} TickClosing(frames: seq<Frame>, crossed: bool, token: Token, continues: bool)
    returns (a: Account)
    requires token.kind.Backtick?
    ensures Closing(a, frames, crossed, token, continues, CloseFor(frames, crossed, token, continues))
  {
    var rest := Remaining(frames, Always);
    RemainingOnTop(frames, Always, AnyBlock);
    EndsAre(|frames| - |rest|, token.start);
    EndsAre(0, token.start);
    if TopIs(rest, InTick) {
      a := Account(|rest| - 1, |frames| - |rest|, false, false);
    } else {
      a := Account(|frames|, 0, false, false);
      assert frames[..|frames|] == frames;
    }
    assert EndsTick(frames, a.kept, a.ends);
  }

  lemma {:induction false} WhereClosing(frames: seq<Frame>, crossed: bool, token: Token, continues: bool)
    returns (a: Account)
    requires token.kind.Where?
    ensures Closing(a, frames, crossed, token, continues, CloseFor(frames, crossed, token, continues))
  {
    var inner := Popped(frames, TopIs(frames, InDeclarationHead));
    var rest := Remaining(inner, DoOrOutdented(token.indent));
    RemainingOnTop(inner, DoOrOutdented(token.indent), f => DoOrBlockFrom(token.indent, f));
    EndsAre(|inner| - |rest|, token.start);
    a := Account(|rest|, |inner| - |rest|, false, false);
    assert rest == frames[..|rest|];
  }

  lemma {:induction false} InClosing(frames: seq<Frame>, crossed: bool, token: Token, continues: bool)
    returns (a: Account)
    requires token.kind.In?
    ensures Closing(a, frames, crossed, token, continues, CloseFor(frames, crossed, token, continues))
  {
    InnermostLast(frames, InBlock(LetBlock));
    EndsAre(0, token.start);
    assert frames[..|frames|] == frames;
    match Innermost(frames, InBlock(LetBlock))
    case None => a := Account(|frames|, 0, false, false);
    case Some(index) =>
      EndsAre(|frames| - index, token.start);
      a := Account(index, |frames| - index, false, false);
  }

  lemma {:induction false} ElseClosing(frames: seq<Frame>, crossed: bool, token: Token, continues: bool)
    returns (a: Account)
    requires token.kind.Else?
    ensures Closing(a, frames, crossed, token, continues, CloseFor(frames, crossed, token, continues))
  {
    InnermostLast(frames, InThen);
    EndsAre(0, token.start);
    assert frames[..|frames|] == frames;
    match Innermost(frames, InThen)
    case Some(index) =>
      EndsAre(Blocks(frames[index..]), token.start);
      a := Account(index, Blocks(frames[index..]), false, false);
    case None => a := OutdentClosing(frames, crossed, token);
  }

  lemma {:induction false} OutdentClosing(frames: seq<Frame>, crossed: bool, token: Token) returns (a: Account)
    ensures a.kept <= |frames| && !a.start && !a.separator
    ensures EndsOutdented(frames, crossed, token.indent, a.kept, a.ends)
    ensures var e := if crossed then CloseBlocks(frames, Outdented(token.indent), token.start) else Same(frames);
            e.marks == Markers(a, token.start) && e.frames == frames[..a.kept]
  {
    var rest := Remaining(frames, Outdented(token.indent));
    RemainingOnTop(frames, Outdented(token.indent), f => BlockPast(token.indent, f));
    EndsAre(|frames| - |rest|, token.start);
    EndsAre(0, token.start);
    assert frames[..|frames|] == frames;
    a := if crossed then Account(|rest|, |frames| - |rest|, false, false) else Account(|frames|, 0, false, false);
  }

  lemma {:induction false} BindersClosing(frames: seq<Frame>, at: nat) returns (kept: nat, ends: nat)
    ensures kept <= |frames| && EndsBinders(frames, kept, ends)
    ensures CloseBinders(frames, at).marks == seq(ends, _ => End(at))
    ensures CloseBinders(frames, at).frames == frames[..kept]
  {
    var rest := Remaining(frames, OnlyDo);
    RemainingOnTop(frames, OnlyDo, OpenDo);
    kept, ends := if TopBinders(rest) then |rest| - 1 else |rest|, |frames| - |rest|;
    EndsAre(ends, at);
  }

  lemma {:induction false} ArrowClosing(frames: seq<Frame>, crossed: bool, token: Token, continues: bool)
    returns (a: Account)
    requires token.kind.Arrow? || token.kind.Equals?
    ensures Closing(a, frames, crossed, token, continues, CloseFor(frames, crossed, token, continues))
  {
    var kept, ends := BindersClosing(frames, token.start);
    a := Account(kept, ends, false, false);
    assert CloseFor(frames, crossed, token, continues) == CloseBinders(frames, token.start);
  }

  lemma {:induction false} LineClosing(frames: seq<Frame>, crossed: bool, token: Token, continues: bool)
    returns (a: Account)
    requires !NeverSeparated(token.kind)
    ensures Closing(a, frames, crossed, token, continues, CloseFor(frames, crossed, token, continues))
  {
    a := OutdentClosing(frames, crossed, token);
    var rest := frames[..a.kept];
    if crossed && !continues && BlockOnTop(rest) && rest[|rest| - 1].indent == token.indent {
      a := a.(separator := true);
    }
  }

  lemma {:induction false} ClosingExplained(frames: seq<Frame>, crossed: bool, token: Token, continues: bool)
    returns (a: Account)
    ensures Closing(a, frames, crossed, token, continues, CloseFor(frames, crossed, token, continues))
  {
    if Closer(token.kind).Some? {
      a := BracketClosing(frames, crossed, token, continues);
    } else {
      match token.kind
      case Comma => a := CommaClosing(frames, crossed, token, continues);
      case Backtick => a := TickClosing(frames, crossed, token, continues);
      case Where => a := WhereClosing(frames, crossed, token, continues);
      case In => a := InClosing(frames, crossed, token, continues);
      case Else => a := ElseClosing(frames, crossed, token, continues);
      case Arrow => a := ArrowClosing(frames, crossed, token, continues);
      case Equals => a := ArrowClosing(frames, crossed, token, continues);
      case _ => a := LineClosing(frames, crossed, token, continues);
    }
  }

  ghost predicate SameBlocks(a: seq<Frame>, b: seq<Frame>) {
    forall f: Frame :: f.kind.InBlock? ==> (f in a <==> f in b)
  }

  lemma {:induction false} StartExplained(frames: seq<Frame>, kept: seq<Frame>, pending: Option<BlockKind>,
                                          token: Token)
    requires Increasing(frames) && SameBlocks(frames, kept)
    ensures var start, e := StartDue(pending, token.indent, kept), OpenPending(frames, pending, token);
            && e.frames == Started(frames, pending, token.indent, start)
            && e.marks == if start then [Start(token.start)] else []
  {
    EnclosingBelow(frames, token.indent);
    if pending == Some(OfBlock) {
      assert frames + [Frame(token.indent, InBlock(OfBlock))] + [Frame(token.indent, InCaseBinders)]
             == frames + [Frame(token.indent, InBlock(OfBlock)), Frame(token.indent, InCaseBinders)];
    }
  }

  lemma {:induction false} EnclosingLast(frames: seq<Frame>)
    ensures Enclosing(frames).None? ==> forall i :: 0 <= i < |frames| ==> !AnyBlock(frames[i])
    ensures Enclosing(frames).Some? ==> exists at: nat :: LastBlock(frames, at) && frames[at] == Enclosing(frames).value
  {
    if frames != [] {
      var n := |frames| - 1;
      if AnyBlock(frames[n]) {
        assert LastBlock(frames, n);
      } else {
        EnclosingLast(frames[..n]);
        assert forall i :: 0 <= i < n ==> frames[..n][i] == frames[i];
        if Enclosing(frames).Some? {
          var at: nat :| LastBlock(frames[..n], at) && frames[..n][at] == Enclosing(frames).value;
          assert LastBlock(frames, at);
        }
      }
    }
  }

  lemma {:induction false} GuardableMeans(frames: seq<Frame>)
    ensures Enclosing(frames).Some? && AllowsGuards(Enclosing(frames).value) <==> InGuardable(frames)
  {
    EnclosingLast(frames);
    if InGuardable(frames) {
      var at: nat :| LastBlock(frames, at) && AllowsGuards(frames[at]);
      assert Enclosing(frames).Some?;
      var other: nat :| LastBlock(frames, other) && frames[other] == Enclosing(frames).value;
      assert at == other;
    }
  }

  lemma {:induction false} OpenedExplained(frames: seq<Frame>, token: Token)
    ensures Opened(frames, token, OpenFor(frames, token).frames)
  {
    match token.kind
    case Then => ThenExplained(frames, token);
    case Pipe => PipeExplained(frames, token);
    case _ => OtherExplained(frames, token);
  }

  lemma {:induction false} ThenExplained(frames: seq<Frame>, token: Token)
    requires token.kind.Then?
    ensures Opened(frames, token, OpenFor(frames, token).frames)
  {
    InnermostLast(frames, InIf);
  }

  lemma {:induction false} PipeExplained(frames: seq<Frame>, token: Token)
    requires token.kind.Pipe?
    ensures Opened(frames, token, OpenFor(frames, token).frames)
  {
    GuardableMeans(Popped(frames, TopIs(frames, InCaseBinders)));
  }

  lemma {:induction false} OtherExplained(frames: seq<Frame>, token: Token)
    requires !token.kind.Then? && !token.kind.Pipe?
    ensures Opened(frames, token, OpenFor(frames, token).frames)
  {
  }

  // ----- One step, explained -----

  lemma {:induction false} StandingIs(frames: seq<Frame>, crossed: bool, token: Token)
    ensures Standing(frames, crossed, token.indent) == Before(frames, crossed, token)
    ensures FieldName(frames, crossed, token) == IsProperty(frames, crossed, token)
  {
  }

  lemma {:induction false} SeparatorMeans(s: State, token: Token, next: Option<TokenKind>, left: seq<Frame>)
    ensures SeparatorDue(s, token, next, left)
            <==> && s.crossedNewline && !FieldName(s.frames, s.crossedNewline, token) && !NeverSeparated(token.kind)
                 && !Continues(s.frames, s.crossedNewline, token, next)
                 && BlockOnTop(left) && left[|left| - 1].indent == token.indent
  {
  }

  /** What closes before a token: an account without its start. */
  lemma {:induction false} PartExplained(s: State, token: Token, next: Option<TokenKind>) returns (a: Account)
    ensures var name, frames := FieldName(s.frames, s.crossedNewline, token),
                                Standing(s.frames, s.crossedNewline, token.indent);
            var closed := ClosedPart(s, token, next);
            && a.kept <= |frames| && !a.start && closed.marks == Markers(a, token.start)
            && (if name then EndsNothing(frames, a.kept, a.ends)
                else Leaves(frames, s.crossedNewline, token, a.kept, a.ends))
            && (a.separator <==> SeparatorDue(s, token, next, frames[..a.kept]))
            && closed.frames == Replaced(frames[..a.kept], |frames|, token, name, a.separator)
  {
    var frames := Standing(s.frames, s.crossedNewline, token.indent);
    StandingIs(s.frames, s.crossedNewline, token);
    if FieldName(s.frames, s.crossedNewline, token) {
      a := Account(|frames|, 0, false, false);
      assert frames[..|frames|] == frames;
    } else {
      a := ClosingExplained(frames, s.crossedNewline, token, Continues(s.frames, s.crossedNewline, token, next));
      SeparatorMeans(s, token, next, frames[..a.kept]);
    }
  }

  lemma {:induction false} ReplacedBlocks(left: seq<Frame>, all: nat, token: Token, name: bool, separator: bool)
    ensures SameBlocks(Replaced(left, all, token, name, separator), left)
  {
  }

  lemma {:induction false} MarkersJoin(a: Account, at: nat, start: bool)
    requires !a.start
    ensures Markers(a, at) + (if start then [Start(at)] else []) == Markers(a.(start := start), at)
  {
    assert Markers(a, at) + [] == Markers(a, at);
  }

  lemma {:induction false} AnnouncedIs(s: State, token: Token)
    ensures (if IsProperty(s.frames, s.crossedNewline, token) then None else BlockAfter(token.kind))
         == Announced(s.frames, s.crossedNewline, token)
  {
    StandingIs(s.frames, s.crossedNewline, token);
  }

  /** Every token does what the laws above say. */
  lemma {:induction false} StepExplained(s: State, token: Token, next: Option<TokenKind>) returns (a: Account)
    requires Increasing(s.frames)
    ensures Explains(a, s, token, next, StepEffect(s, token, next).marks, StepState(s, token, next))
  {
    var frames := Standing(s.frames, s.crossedNewline, token.indent);
    StandingIs(s.frames, s.crossedNewline, token);
    var part := PartExplained(s, token, next);
    var closed := ClosedPart(s, token, next);
    ClosedLawful(s, token, next);
    ReplacedBlocks(frames[..part.kept], |frames|, token, FieldName(s.frames, s.crossedNewline, token), part.separator);
    StartExplained(closed.frames, frames[..part.kept], s.pending, token);
    var start := StartDue(s.pending, token.indent, frames[..part.kept]);
    MarkersJoin(part, token.start, start);
    OpenedExplained(OpenedPart(s, token, next).frames, token);
    a := part.(start := start);
    Parts(s, token, next);
    AnnouncedIs(s, token);
  }

  // ----- Runs, explained -----

  /** The output between the raw token before and token `i`. */
  ghost predicate WritesBefore(tokens: seq<Token>, i: nat, marks: seq<Marked>)
    requires i < |tokens|
  {
    RunOf(tokens, i + 1).result == RunOf(tokens, i).result + marks + [Raw(tokens[i])]
  }

  ghost predicate ExplainedAt(a: Account, tokens: seq<Token>, i: nat, marks: seq<Marked>)
    requires i < |tokens|
  {
    Explains(a, RunOf(tokens, i).state, tokens[i], NextKind(tokens, i), marks, RunOf(tokens, i + 1).state)
  }

  /** In every run, the markers before every visible token are those that the laws give. */
  lemma {:induction false} RunExplained(tokens: seq<Token>, i: nat, marks: seq<Marked>) returns (a: Account)
    requires i < |tokens| && Visits(tokens, i) && WritesBefore(tokens, i, marks)
    ensures ExplainedAt(a, tokens, i, marks)
  {
    var r, token, next := RunOf(tokens, i), tokens[i], NextKind(tokens, i);
    RunSound(tokens, i);
    VisitWrites(tokens, i, r);
    a := StepExplained(r.state, token, next);
    var written := StepEffect(r.state, token, next).marks;
    assert r.result + marks + [Raw(token)] == r.result + written + [Raw(token)];
    Between(r.result, marks, written, Raw(token));
  }

  lemma {:induction false} VisitWrites(tokens: seq<Token>, i: nat, r: Run)
    requires i < |tokens| && Visits(tokens, i) && r == RunOf(tokens, i)
    ensures WritesBefore(tokens, i, StepEffect(r.state, tokens[i], NextKind(tokens, i)).marks)
    ensures RunOf(tokens, i + 1).state == StepState(r.state, tokens[i], NextKind(tokens, i))
  {
    assert RunOf(tokens, i + 1) == After(r, tokens[i], NextKind(tokens, i));
  }

  lemma {:induction false} Between(before: seq<Marked>, a: seq<Marked>, b: seq<Marked>, last: Marked)
    requires before + a + [last] == before + b + [last]
    ensures a == b
  {
    assert |a| == |b|;
    forall i | 0 <= i < |a| ensures a[i] == b[i] {
      assert (before + a + [last])[|before| + i] == a[i] && (before + b + [last])[|before| + i] == b[i];
    }
  }

  lemma {:induction false} OnTopOnce(frames: seq<Frame>, k: nat, l: nat, such: Frame -> bool)
    requires OnTop(frames, k, such) && OnTop(frames, l, such)
    ensures k == l
  {
  }

  /** The column is that of the block on top, once the blocks past it are gone. */
  ghost predicate AtBlockColumn(frames: seq<Frame>, column: nat) {
    exists kept: nat :: OnTop(frames, kept, f => BlockPast(column, f))
                        && BlockOnTop(frames[..kept]) && frames[kept - 1].indent == column
  }

  /** A separator stands before a visible token if and only if the token starts a line, is neither a field name nor
      one that closes or continues, and is at the column of the innermost block left open. */
  lemma {:induction false} Separators(tokens: seq<Token>, i: nat, marks: seq<Marked>)
    requires i < |tokens| && Visits(tokens, i) && WritesBefore(tokens, i, marks)
    ensures var s, token := RunOf(tokens, i).state, tokens[i];
            Separator(token.start) in marks
            <==> && s.crossedNewline && !FieldName(s.frames, s.crossedNewline, token) && !NeverSeparated(token.kind)
                 && (ContinuesLine(token.kind)
                     ==> StartsAlternative(s.frames, s.crossedNewline, token, NextKind(tokens, i)))
                 && AtBlockColumn(Standing(s.frames, s.crossedNewline, token.indent), token.indent)
  {
    var a := RunExplained(tokens, i, marks);
    SeparatorAt(a, RunOf(tokens, i).state, tokens[i], NextKind(tokens, i), marks, RunOf(tokens, i + 1).state);
  }

  lemma {:induction false} SeparatorAt(a: Account, s: State, token: Token, next: Option<TokenKind>,
                                       marks: seq<Marked>, s': State)
    requires Explains(a, s, token, next, marks, s')
    ensures Separator(token.start) in marks
            <==> && s.crossedNewline && !FieldName(s.frames, s.crossedNewline, token) && !NeverSeparated(token.kind)
                 && (ContinuesLine(token.kind) ==> StartsAlternative(s.frames, s.crossedNewline, token, next))
                 && AtBlockColumn(Standing(s.frames, s.crossedNewline, token.indent), token.indent)
  {
    var frames := Standing(s.frames, s.crossedNewline, token.indent);
    MarkerKinds(a, token.start);
    if s.crossedNewline && !FieldName(s.frames, s.crossedNewline, token) && !NeverSeparated(token.kind) {
      LineLeaves(frames, token, a.kept, a.ends);
    }
  }

  lemma {:induction false} LineLeaves(frames: seq<Frame>, token: Token, kept: nat, ends: nat)
    requires kept <= |frames| && !NeverSeparated(token.kind) && Leaves(frames, true, token, kept, ends)
    ensures AtBlockColumn(frames, token.indent)
            <==> BlockOnTop(frames[..kept]) && frames[kept - 1].indent == token.indent
  {
    var past := (f: Frame) => BlockPast(token.indent, f);
    assert OnTop(frames, kept, past);
    forall other: nat | OnTop(frames, other, past) ensures other == kept {
      OnTopOnce(frames, other, kept, past);
    }
  }

  lemma {:induction false} MarkerKinds(a: Account, at: nat)
    ensures Separator(at) in Markers(a, at) <==> a.separator
    ensures Start(at) in Markers(a, at) <==> a.start
    ensures End(at) in Markers(a, at) <==> a.ends > 0
  {
    var ends := seq(a.ends, _ => End(at));
    var rest := (if a.separator then [Separator(at)] else []) + (if a.start then [Start(at)] else []);
    assert Markers(a, at) == ends + rest;
    if a.ends > 0 { assert ends[0] == End(at) && Markers(a, at)[0] == End(at); }
    if a.separator { assert Markers(a, at)[a.ends] == Separator(at); }
    if a.start { assert Markers(a, at)[|Markers(a, at)| - 1] == Start(at); }
  }

  /** A start stands before a visible token if and only if the visible token before it is one of the five keywords,
      not as a field name, and the token is indented past every block that is left open. */
  lemma {:induction false} Starts(tokens: seq<Token>, p: nat, i: nat, marks: seq<Marked>) returns (a: Account)
    requires p < i < |tokens| && Visits(tokens, p) && Visits(tokens, i) && WritesBefore(tokens, i, marks)
    requires forall j :: p < j < i ==> tokens[j].kind.Newline?
    ensures ExplainedAt(a, tokens, i, marks)
    ensures var s, before := RunOf(tokens, i).state, RunOf(tokens, p).state;
            var left := Standing(s.frames, s.crossedNewline, tokens[i].indent)[..a.kept];
            Start(tokens[i].start) in marks
            <==> && Announced(before.frames, before.crossedNewline, tokens[p]).Some?
                 && forall f <- left :: f.kind.InBlock? ==> f.indent < tokens[i].indent
  {
    a := RunExplained(tokens, i, marks);
    MarkerKinds(a, tokens[i].start);
    PendingAfter(tokens, p, i, RunOf(tokens, p), RunOf(tokens, i));
  }

  /** What is pending is decided by the visible token before: newlines leave it as it is. */
  lemma {:induction false} PendingAfter(tokens: seq<Token>, p: nat, i: nat, before: Run, r: Run)
    requires p < i < |tokens| && Visits(tokens, p) && forall j :: p < j < i ==> tokens[j].kind.Newline?
    requires before == RunOf(tokens, p) && r == RunOf(tokens, i)
    ensures r.state.pending == Announced(before.state.frames, before.state.crossedNewline, tokens[p])
  {
    var runs := TraceOf(tokens);
    PendingTrace(tokens, runs, p, i);
  }

  ghost predicate Trace(tokens: seq<Token>, runs: seq<Run>) {
    |runs| == |tokens| + 1 && forall k: nat :: StepAt(tokens, runs, k)
  }

  lemma {:induction false} TraceOf(tokens: seq<Token>) returns (runs: seq<Run>)
    ensures Trace(tokens, runs) && forall n: nat :: n <= |tokens| ==> runs[n] == RunOf(tokens, n)
  {
    runs := seq(|tokens| + 1, n requires 0 <= n <= |tokens| => RunOf(tokens, n));
  }

  lemma {:induction false} PendingTrace(tokens: seq<Token>, runs: seq<Run>, p: nat, i: nat)
    requires Trace(tokens, runs) && p < i < |tokens| && forall j :: p < j < i ==> tokens[j].kind.Newline?
    requires !runs[p].ended && !tokens[p].kind.Newline? && !tokens[p].kind.Eof?
    ensures runs[i].state.pending
         == Announced(runs[p].state.frames, runs[p].state.crossedNewline, tokens[p])
    decreases i
  {
    assert StepAt(tokens, runs, i - 1);
    if i == p + 1 { AnnouncedIs(runs[p].state, tokens[p]); } else { PendingTrace(tokens, runs, p, i - 1); }
  }

  /** Nothing is pending before the first visible token. */
  lemma {:induction false} NothingPending(tokens: seq<Token>, runs: seq<Run>, i: nat)
    requires Trace(tokens, runs) && i < |tokens| && runs[0].state.pending.None?
    requires forall j :: 0 <= j < i ==> tokens[j].kind.Newline?
    ensures runs[i].state.pending.None?
  {
    if i > 0 {
      NothingPending(tokens, runs, i - 1);
      assert StepAt(tokens, runs, i - 1);
    }
  }

  lemma {:induction false} FirstStarts(tokens: seq<Token>, i: nat, marks: seq<Marked>)
    requires i < |tokens| && Visits(tokens, i) && WritesBefore(tokens, i, marks)
    requires forall j :: 0 <= j < i ==> tokens[j].kind.Newline?
    ensures Start(tokens[i].start) !in marks
  {
    var a := RunExplained(tokens, i, marks);
    MarkerKinds(a, tokens[i].start);
    var runs := TraceOf(tokens);
    assert runs[0] == RunOf(tokens, 0);
    NothingPending(tokens, runs, i);
  }

  /** The end of the file ends every open block. */
  lemma {:induction false} EofEnds(tokens: seq<Token>, i: nat, r: Run)
    requires i < |tokens| && r == RunOf(tokens, i) && !r.ended && tokens[i].kind.Eof?
    ensures WritesBefore(tokens, i, seq(Blocks(r.state.frames), _ => End(tokens[i].start)))
  {
    assert RunOf(tokens, i + 1) == After(r, tokens[i], NextKind(tokens, i));
    assert r.state.frames[0..] == r.state.frames;
    EndsAre(Blocks(r.state.frames), tokens[i].start);
  }

  /** A token starts a line if and only if a newline stands between it and the visible token before it. */
  lemma {:induction false} LineStarts(tokens: seq<Token>, p: nat, i: nat, r: Run)
    requires p < i < |tokens| && Visits(tokens, p) && forall j :: p < j < i ==> tokens[j].kind.Newline?
    requires r == RunOf(tokens, i)
    ensures r.state.crossedNewline <==> exists j :: p < j < i && tokens[j].kind.Newline?
  {
    var runs := TraceOf(tokens);
    assert runs[p] == RunOf(tokens, p);
    CrossedTrace(tokens, runs, p, i);
    if p + 1 < i { assert tokens[p + 1].kind.Newline?; }
  }

  lemma {:induction false} CrossedTrace(tokens: seq<Token>, runs: seq<Run>, p: nat, i: nat)
    requires Trace(tokens, runs) && p < i < |tokens| && forall j :: p < j < i ==> tokens[j].kind.Newline?
    requires !runs[p].ended && !tokens[p].kind.Newline? && !tokens[p].kind.Eof?
    ensures !runs[i].ended && (runs[i].state.crossedNewline <==> p + 1 < i)
    decreases i
  {
    assert StepAt(tokens, runs, i - 1);
    if p + 1 < i { CrossedTrace(tokens, runs, p, i - 1); }
  }
}
