/**
 The launch arguments: session selectors are taken out, the rest is split into options and
 prompt, and the arguments of a later child are put together from the parts.
 */
module LaunchArgv {
  import opened Basics

  datatype ResumeForm = Uuid | Search | Bare

  datatype Selector = Resume(form: ResumeForm, value: string) | Continue | SessionId(id: string) | ForkSession

  datatype Normalized = Normalized(passthrough: seq<string>, rest: seq<string>, selectors: seq<Selector>,
                                   unsupported: seq<string>)

  datatype GrammarError = NeedsUuid | NotAUuid(value: string)

  datatype Outcome = Good(n: Normalized) | Bad(error: GrammarError)

  const NONE := Normalized([], [], [], [])

  predicate IsFlag(arg: string) {
    arg != "" && arg[0] == '-'
  }

  predicate IsHex(c: char) {
    '0' <= c <= '9' || 'a' <= c <= 'f' || 'A' <= c <= 'F'
  }

  predicate IsUuid(s: string) {
    && |s| == 36
    && forall i :: 0 <= i < 36 ==> if i in {8, 13, 18, 23} then s[i] == '-' else IsHex(s[i])
  }

  lemma HexDigits(c: char)
    ensures IsHex(c) <==> c in "0123456789abcdefABCDEF"
  {
    var digits := "0123456789abcdefABCDEF";
    if IsHex(c) {
      var k := if c <= '9' then c as int - '0' as int
               else if c <= 'F' then c as int - 'A' as int + 16
               else c as int - 'a' as int + 10;
      assert digits[k] == c;
    }
  }

  ghost predicate AllHex(s: string) {
    forall c <- s :: c in "0123456789abcdefABCDEF"
  }

  lemma GroupIsHex(s: string, i: nat, j: nat)
    requires i <= j <= |s|
    ensures AllHex(s[i..j]) <==> forall k :: i <= k < j ==> IsHex(s[k])
  {
    forall c: char ensures IsHex(c) <==> c in "0123456789abcdefABCDEF" {
      HexDigits(c);
    }
    if AllHex(s[i..j]) {
      assert forall k :: i <= k < j ==> s[k] == s[i..j][k - i];
    }
  }

  /** Five groups of hex digits with a hyphen between: eight, three times four, and twelve. */
  lemma UuidIff(s: string)
    ensures IsUuid(s) <==>
            && |s| == 36 && s[8] == '-' && s[13] == '-' && s[18] == '-' && s[23] == '-'
            && AllHex(s[0..8]) && AllHex(s[9..13]) && AllHex(s[14..18]) && AllHex(s[19..23]) && AllHex(s[24..36])
  {
    if |s| == 36 {
      GroupIsHex(s, 0, 8);
      GroupIsHex(s, 9, 13);
      GroupIsHex(s, 14, 18);
      GroupIsHex(s, 19, 23);
      GroupIsHex(s, 24, 36);
    }
  }

  predicate HasValue(arg: string, flag: string) {
    flag + "=" <= arg
  }

  function UnsupportedFlag(arg: string, flags: seq<string>): Option<string> {
    if flags == [] then None
    else if arg == flags[0] || HasValue(arg, flags[0]) then Some(flags[0])
    else UnsupportedFlag(arg, flags[1..])
  }

  /** What an argument before the double dash says by itself. */
  datatype Kind =
    | DashDash | Unsupported(flag: string) | ForkArg | ContinueArg | ResumeArg | ResumeIs(value: string)
    | SessionArg | SessionIs(value: string) | Plain

  /** The words of the launch grammar. */
  datatype Grammar = Grammar(dashDash: string, unsupported: seq<string>, forkSession: string, continueLong: string,
                             continueShort: string, resume: string, resumeShort: string, sessionId: string)

  const CLAUDE_GRAMMAR := Grammar("--", ["--teleport", "--worktree", "-w", "--from-pr", "--cloud", "--remote-control",
                                        "--tmux"],
                                  "--fork-session", "--continue", "-c", "--resume", "-r", "--session-id")

  function ValueOf(arg: string, flag: string): string
    requires HasValue(arg, flag)
  {
    arg[|flag| + 1..]
  }

  function KindOf(g: Grammar, arg: string): Kind {
    if arg == g.dashDash then DashDash
    else if UnsupportedFlag(arg, g.unsupported).Some? then Unsupported(UnsupportedFlag(arg, g.unsupported).value)
    else if arg == g.forkSession then ForkArg
    else if arg == g.continueLong || arg == g.continueShort then ContinueArg
    else if arg == g.resume || arg == g.resumeShort then ResumeArg
    else if HasValue(arg, g.resume) then ResumeIs(ValueOf(arg, g.resume))
    else if HasValue(arg, g.resumeShort) && ValueOf(arg, g.resumeShort) != "" then ResumeIs(ValueOf(arg, g.resumeShort))
    else if arg == g.sessionId then SessionArg
    else if HasValue(arg, g.sessionId) then SessionIs(ValueOf(arg, g.sessionId))
    else Plain
  }

  function ResumeOf(value: string): Selector {
    if value == "" then Resume(Bare, "") else if IsUuid(value) then Resume(Uuid, value) else Resume(Search, value)
  }

  /** What the first argument yields, and how many arguments that takes. */
  datatype Step = Piece(n: Normalized, taken: nat) | Wrong(error: GrammarError)

  function Chose(s: Selector, taken: nat): Step {
    Piece(NONE.(selectors := [s]), taken)
  }

  predicate ValueFollows(argv: seq<string>) {
    |argv| > 1 && !IsFlag(argv[1])
  }

  function FirstOf(g: Grammar, argv: seq<string>): (s: Step)
    requires argv != []
    ensures s.Piece? ==> 1 <= s.taken <= |argv|
  {
    match KindOf(g, argv[0])
    case DashDash => Piece(NONE.(passthrough := argv), |argv|)
    case Unsupported(flag) =>
      Piece(NONE.(unsupported := [flag]), if '=' !in argv[0] && ValueFollows(argv) then 2 else 1)
    case ForkArg => Chose(ForkSession, 1)
    case ContinueArg => Chose(Continue, 1)
    case ResumeArg =>
      if !ValueFollows(argv) then Chose(Resume(Bare, ""), 1)
      else Chose(if IsUuid(argv[1]) then Resume(Uuid, argv[1]) else Resume(Search, argv[1]), 2)
    case ResumeIs(value) => Chose(ResumeOf(value), 1)
    case SessionArg =>
      if !ValueFollows(argv) then Wrong(NeedsUuid)
      else if !IsUuid(argv[1]) then Wrong(NotAUuid(argv[1]))
      else Chose(SessionId(argv[1]), 2)
    case SessionIs(value) => if IsUuid(value) then Chose(SessionId(value), 1) else Wrong(NotAUuid(value))
    case Plain => Piece(NONE.(rest := [argv[0]]), 1)
  }

  function Both(a: Normalized, b: Normalized): Normalized {
    Normalized(a.passthrough + b.passthrough, a.rest + b.rest, a.selectors + b.selectors, a.unsupported + b.unsupported)
  }

  function Before(a: Normalized, o: Outcome): Outcome {
    if o.Good? then Good(Both(a, o.n)) else o
  }

  function Normalised(g: Grammar, argv: seq<string>): Outcome
    decreases |argv|
  {
    if argv == [] then Good(NONE)
    else
      match FirstOf(g, argv)
      case Wrong(e) => Bad(e)
      case Piece(n, taken) => Before(n, Normalised(g, argv[taken..]))
  }

  lemma BeforeTwice(a: Normalized, b: Normalized, o: Outcome)
    ensures Before(a, Before(b, o)) == Before(Both(a, b), o)
  {
    if o.Good? {
      ConcatAssociative(a.passthrough, b.passthrough, o.n.passthrough);
      ConcatAssociative(a.rest, b.rest, o.n.rest);
      ConcatAssociative(a.selectors, b.selectors, o.n.selectors);
      ConcatAssociative(a.unsupported, b.unsupported, o.n.unsupported);
    }
  }

  /** Reads one argument before the double dash, and its value where it has one. */
  method TakeArgument(g: Grammar, argv: seq<string>, i: nat) returns (s: Step)
    requires i < |argv| && argv[i] != g.dashDash
    ensures s == FirstOf(g, argv[i..])
  {
    var arg := argv[i];
    assert argv[i..][0] == arg && (|argv[i..]| > 1 ==> argv[i..][1] == argv[i + 1]);
    var bad := UnsupportedFlag(arg, g.unsupported);
    var follows := i + 1 < |argv| && !IsFlag(argv[i + 1]);
    if bad.Some? {
      return Piece(NONE.(unsupported := [bad.value]), if '=' !in arg && follows then 2 else 1);
    }
    if arg == g.forkSession {
      return Chose(ForkSession, 1);
    }
    if arg == g.continueLong || arg == g.continueShort {
      return Chose(Continue, 1);
    }
    if arg == g.resume || arg == g.resumeShort {
      if !follows {
        return Chose(Resume(Bare, ""), 1);
      }
      return Chose(if IsUuid(argv[i + 1]) then Resume(Uuid, argv[i + 1]) else Resume(Search, argv[i + 1]), 2);
    }
    if HasValue(arg, g.resume) {
      return Chose(ResumeOf(ValueOf(arg, g.resume)), 1);
    }
    if HasValue(arg, g.resumeShort) && |arg| > |g.resumeShort| + 1 {
      return Chose(ResumeOf(ValueOf(arg, g.resumeShort)), 1);
    }
    if arg == g.sessionId {
      if !follows {
        return Wrong(NeedsUuid);
      }
      return if IsUuid(argv[i + 1]) then Chose(SessionId(argv[i + 1]), 2) else Wrong(NotAUuid(argv[i + 1]));
    }
    if HasValue(arg, g.sessionId) {
      var value := ValueOf(arg, g.sessionId);
      return if IsUuid(value) then Chose(SessionId(value), 1) else Wrong(NotAUuid(value));
    }
    s := Piece(NONE.(rest := [arg]), 1);
  }

  /** What is still to come after n was read, before or after the double dash. */
  ghost function ToCome(g: Grammar, n: Normalized, afterDashDash: bool, left: seq<string>): Outcome {
    if afterDashDash then Good(Both(n, NONE.(passthrough := left))) else Before(n, Normalised(g, left))
  }

  lemma PassedThrough(g: Grammar, n: Normalized, left: seq<string>)
    requires left != []
    ensures ToCome(g, n, true, left) == ToCome(g, Both(n, NONE.(passthrough := [left[0]])), true, left[1..])
  {
    ConcatAssociative(n.passthrough, [left[0]], left[1..]);
    assert [left[0]] + left[1..] == left;
  }

  lemma DashDashSeen(g: Grammar, n: Normalized, left: seq<string>)
    requires left != [] && left[0] == g.dashDash
    ensures ToCome(g, n, false, left) == ToCome(g, n, true, left)
  {
    assert Normalised(g, left[|left|..]) == Good(NONE);
    assert Both(NONE.(passthrough := left), NONE) == NONE.(passthrough := left);
  }

  lemma ArgumentTaken(g: Grammar, n: Normalized, left: seq<string>, p: Normalized, taken: nat)
    requires left != [] && FirstOf(g, left) == Piece(p, taken)
    ensures ToCome(g, n, false, left) == ToCome(g, Both(n, p), false, left[taken..])
  {
    BeforeTwice(n, p, Normalised(g, left[taken..]));
  }

  /** Adds what the next argument yields to what was read so far. */
  method Advance(g: Grammar, argv: seq<string>, i: nat, n: Normalized) returns (s: Step)
    requires i < |argv| && argv[i] != g.dashDash
    ensures s.Wrong? ==> ToCome(g, n, false, argv[i..]) == Bad(s.error)
    ensures s.Piece? ==>
              1 <= s.taken <= |argv| - i && ToCome(g, n, false, argv[i..]) == ToCome(g, s.n, false, argv[i + s.taken..])
  {
    s := TakeArgument(g, argv, i);
    if s.Piece? {
      ArgumentTaken(g, n, argv[i..], s.n, s.taken);
      assert argv[i..][s.taken..] == argv[i + s.taken..];
      s := Piece(Both(n, s.n), s.taken);
    }
  }

  /** Passes one argument through. */
  method PassThrough(g: Grammar, argv: seq<string>, i: nat, n: Normalized, afterDashDash: bool)
    returns (next: Normalized)
    requires i < |argv| && (afterDashDash || argv[i] == g.dashDash)
    ensures ToCome(g, n, afterDashDash, argv[i..]) == ToCome(g, next, true, argv[i + 1..])
  {
    ghost var left := argv[i..];
    assert left[1..] == argv[i + 1..] && left[0] == argv[i];
    if !afterDashDash {
      DashDashSeen(g, n, left);
    }
    PassedThrough(g, n, left);
    next := Both(n, NONE.(passthrough := [argv[i]]));
  }

  /** One round: the lists, the position and whether the double dash was seen, or an error. */
  method Round(g: Grammar, argv: seq<string>, i: nat, n: Normalized, afterDashDash: bool)
    returns (next: Normalized, j: nat, seen: bool, error: Option<GrammarError>)
    requires i < |argv|
    ensures error.Some? ==> ToCome(g, n, afterDashDash, argv[i..]) == Bad(error.value)
    ensures error.None? ==>
              i < j <= |argv| && ToCome(g, n, afterDashDash, argv[i..]) == ToCome(g, next, seen, argv[j..])
  {
    if afterDashDash || argv[i] == g.dashDash {
      next := PassThrough(g, argv, i, n, afterDashDash);
      return next, i + 1, true, None;
    }
    var step := Advance(g, argv, i, n);
    match step
    case Wrong(e) => return n, i, false, Some(e);
    case Piece(p, taken) => return p, i + taken, false, None;
  }

  lemma NothingBefore(o: Outcome)
    ensures Before(NONE, o) == o
  {
    if o.Good? {
      assert Both(NONE, o.n) == o.n;
    }
  }

  lemma NothingAfter(g: Grammar, n: Normalized)
    ensures ToCome(g, n, true, []) == ToCome(g, n, false, []) == Good(n)
  {
    assert Both(n, NONE) == n;
  }

  method NormalizeLaunchArgv(g: Grammar, argv: seq<string>) returns (o: Outcome)
    ensures o == Normalised(g, argv)
  {
    var n, i, afterDashDash := NONE, 0, false;
    NothingBefore(Normalised(g, argv));
    assert argv[0..] == argv;
    ghost var toCome := (n, seen, left) => ToCome(g, n, seen, left);
    while i < |argv|
      invariant i <= |argv| && toCome(n, afterDashDash, argv[i..]) == Normalised(g, argv)
    {
      var error;
      n, i, afterDashDash, error := Round(g, argv, i, n, afterDashDash);
      if error.Some? {
        return Bad(error.value);
      }
    }
    NothingAfter(g, n);
    assert argv[i..] == [];
    o := Good(n);
  }

  // ----- Normalising what was put together again -----

  function ChildArgv(rest: seq<string>, selectorArgs: seq<string>, passthrough: seq<string>): seq<string> {
    rest + selectorArgs + passthrough
  }

  function LaunchChildArgv(g: Grammar, rest: seq<string>, passthrough: seq<string>, id: string): seq<string> {
    ChildArgv(rest, [g.resume, id], passthrough)
  }

  ghost predicate AllPlain(g: Grammar, args: seq<string>) {
    forall a :: a in args ==> KindOf(g, a).Plain?
  }

  lemma PieceShape(g: Grammar, argv: seq<string>)
    requires argv != [] && FirstOf(g, argv).Piece?
    ensures AllPlain(g, FirstOf(g, argv).n.rest)
    ensures FirstOf(g, argv).n.passthrough != [] ==> FirstOf(g, argv).n.passthrough == argv && argv[0] == g.dashDash
  {
  }

  /** What is left over are plain arguments, and what is passed through begins with the double dash. */
  lemma {:induction false} NormalisedShape(g: Grammar, argv: seq<string>)
    ensures Normalised(g, argv).Good? ==>
              var n := Normalised(g, argv).n;
              AllPlain(g, n.rest) && (n.passthrough != [] ==> n.passthrough[0] == g.dashDash)
    decreases |argv|
  {
    if argv != [] && FirstOf(g, argv).Piece? {
      var first := FirstOf(g, argv);
      NormalisedShape(g, argv[first.taken..]);
      PieceShape(g, argv);
    }
  }

  lemma PlainTaken(g: Grammar, arg: string, left: seq<string>)
    requires KindOf(g, arg).Plain?
    ensures Normalised(g, [arg] + left) == Before(NONE.(rest := [arg]), Normalised(g, left))
  {
    var argv := [arg] + left;
    assert argv[0] == arg && argv[1..] == left;
    assert FirstOf(g, argv) == Piece(NONE.(rest := [arg]), 1);
  }

  lemma {:induction false} PlainFirst(g: Grammar, rest: seq<string>, tail: seq<string>)
    requires AllPlain(g, rest)
    ensures Normalised(g, rest + tail) == Before(NONE.(rest := rest), Normalised(g, tail))
    decreases rest
  {
    if rest == [] {
      assert rest + tail == tail;
      NothingBefore(Normalised(g, tail));
    } else {
      FirstIsIn(rest);
      assert [rest[0]] + (rest[1..] + tail) == rest + tail;
      PlainTaken(g, rest[0], rest[1..] + tail);
      PlainFirst(g, rest[1..], tail);
      BeforeTwice(NONE.(rest := [rest[0]]), NONE.(rest := rest[1..]), Normalised(g, tail));
      assert [rest[0]] + rest[1..] == rest;
    }
  }

  predicate IsUnlike(arg: string, flag: string) {
    arg != flag && !HasValue(arg, flag)
  }

  lemma {:induction false} UnsupportedIff(arg: string, flags: seq<string>)
    ensures UnsupportedFlag(arg, flags).None? <==> forall f <- flags :: IsUnlike(arg, f)
    decreases flags
  {
    if flags != [] {
      UnsupportedIff(arg, flags[1..]);
      FirstIsIn(flags);
      if UnsupportedFlag(arg, flags).None? {
        forall f | f in flags ensures IsUnlike(arg, f) {
          assert f == flags[0] || f in flags[1..];
        }
      } else if IsUnlike(arg, flags[0]) {
        var f :| f in flags[1..] && !IsUnlike(arg, f);
        assert f in flags;
      }
    }
  }

  /** The word for resuming is read as that. */
  predicate ResumesBySelector(g: Grammar) {
    KindOf(g, g.resume).ResumeArg?
  }

  lemma ClaudeResumesBySelector()
    ensures ResumesBySelector(CLAUDE_GRAMMAR)
  {
    var resume := CLAUDE_GRAMMAR.resume;
    forall f | f in CLAUDE_GRAMMAR.unsupported ensures resume != f && !HasValue(resume, f) {
      assert resume[2] == 'r' && resume[5] == 'u';
      assert f == "--teleport" || f == "--worktree" || f == "-w" || f == "--from-pr" || f == "--cloud"
             || f == "--remote-control" || f == "--tmux";
      assert |f| < |resume| ==> f[1] == 'w' || f[2] == 'c' || f[2] == 't';
    }
    UnsupportedIff(resume, CLAUDE_GRAMMAR.unsupported);
  }

  lemma UuidIsNoFlag(id: string)
    requires IsUuid(id)
    ensures !IsFlag(id)
  {
    assert 0 !in {8, 13, 18, 23} && IsHex(id[0]);
  }

  lemma SelectorTaken(g: Grammar, id: string, left: seq<string>)
    requires ResumesBySelector(g) && IsUuid(id)
    ensures Normalised(g, [g.resume, id] + left) == Before(NONE.(selectors := [Resume(Uuid, id)]), Normalised(g, left))
  {
    var argv := [g.resume, id] + left;
    UuidIsNoFlag(id);
    assert argv[0] == g.resume && argv[1] == id && argv[2..] == left;
    assert FirstOf(g, argv) == Chose(Resume(Uuid, id), 2);
  }

  lemma PassedThroughWhole(g: Grammar, passthrough: seq<string>)
    requires passthrough != [] ==> passthrough[0] == g.dashDash
    ensures Normalised(g, passthrough) == Good(NONE.(passthrough := passthrough))
  {
    if passthrough != [] {
      DashDashSeen(g, NONE, passthrough);
      NothingBefore(Normalised(g, passthrough));
    }
  }

  /** The selector of a later child reads back as one uuid resume, whatever is passed through behind it. */
  lemma SelectorReadsBack(g: Grammar, id: string, passthrough: seq<string>)
    requires ResumesBySelector(g) && IsUuid(id) && (passthrough != [] ==> passthrough[0] == g.dashDash)
    ensures Normalised(g, [g.resume, id] + passthrough) == Good(Normalized(passthrough, [], [Resume(Uuid, id)], []))
  {
    SelectorTaken(g, id, passthrough);
    PassedThroughWhole(g, passthrough);
  }

  lemma BehindPlain(rest: seq<string>, passthrough: seq<string>, selectors: seq<Selector>)
    ensures Before(NONE.(rest := rest), Good(Normalized(passthrough, [], selectors, [])))
            == Good(Normalized(passthrough, rest, selectors, []))
  {
    assert rest + [] == rest;
  }

  lemma PlainThenSelector(g: Grammar, rest: seq<string>, id: string, passthrough: seq<string>)
    requires ResumesBySelector(g) && AllPlain(g, rest) && IsUuid(id)
             && (passthrough != [] ==> passthrough[0] == g.dashDash)
    ensures Normalised(g, LaunchChildArgv(g, rest, passthrough, id))
            == Good(Normalized(passthrough, rest, [Resume(Uuid, id)], []))
  {
    SelectorReadsBack(g, id, passthrough);
    PlainFirst(g, rest, [g.resume, id] + passthrough);
    ConcatAssociative(rest, [g.resume, id], passthrough);
    BehindPlain(rest, passthrough, [Resume(Uuid, id)]);
  }

  /** Normalising a later child's arguments gives the same rest and passthrough, and one uuid selector. */
  lemma ChildArgvReadsBack(g: Grammar, argv: seq<string>, id: string)
    requires ResumesBySelector(g) && Normalised(g, argv).Good? && IsUuid(id)
    ensures var n := Normalised(g, argv).n;
            Normalised(g, LaunchChildArgv(g, n.rest, n.passthrough, id))
            == Good(Normalized(n.passthrough, n.rest, [Resume(Uuid, id)], []))
  {
    var n := Normalised(g, argv).n;
    NormalisedShape(g, argv);
    PlainThenSelector(g, n.rest, id, n.passthrough);
  }

  // ----- Spelling arguments out and reading them back -----

  /**
   A plain argument, a selector with its value joined by an equals sign or behind it, by its long or
   short name, or a refused flag.
   */
  datatype Word = Argument(arg: string) | Selecting(s: Selector, isJoined: bool, isShort: bool) | Refused(flag: string)

  function WithValue(flag: string, value: string, isJoined: bool): seq<string> {
    if isJoined then [flag + "=" + value] else [flag, value]
  }

  function Spelled(g: Grammar, w: Word): seq<string> {
    match w
    case Argument(arg) => [arg]
    case Refused(flag) => [flag + "="]
    case Selecting(Continue, _, isShort) => [if isShort then g.continueShort else g.continueLong]
    case Selecting(ForkSession, _, _) => [g.forkSession]
    case Selecting(SessionId(id), isJoined, _) => WithValue(g.sessionId, id, isJoined)
    case Selecting(Resume(_, value), isJoined, isShort) =>
      WithValue(if isShort then g.resumeShort else g.resume, value, isJoined)
  }

  function AllSpelled(g: Grammar, words: seq<Word>): seq<string> {
    if words == [] then [] else Spelled(g, words[0]) + AllSpelled(g, words[1..])
  }

  /** What can be spelled out: a value behind its flag is no flag, and ids are uuids. */
  ghost predicate CanBeSpelled(g: Grammar, w: Word) {
    match w
    case Argument(arg) => KindOf(g, arg).Plain?
    case Refused(flag) => flag in g.unsupported
    case Selecting(SessionId(id), _, _) => IsUuid(id)
    case Selecting(Resume(form, value), isJoined, isShort) =>
      && (form.Bare? <==> value == "") && (form.Uuid? <==> IsUuid(value))
      && ((isJoined && !isShort) || (value != "" && (isJoined || !IsFlag(value))))
    case Selecting(_, _, _) => true
  }

  function ArgumentOf(w: Word): seq<string> {
    if w.Argument? then [w.arg] else []
  }

  function SelectorOf(w: Word): seq<Selector> {
    if w.Selecting? then [w.s] else []
  }

  function RefusalOf(w: Word): seq<string> {
    if w.Refused? then [w.flag] else []
  }

  function ArgumentsOf(words: seq<Word>): seq<string> {
    if words == [] then [] else ArgumentOf(words[0]) + ArgumentsOf(words[1..])
  }

  function SelectorsOf(words: seq<Word>): seq<Selector> {
    if words == [] then [] else SelectorOf(words[0]) + SelectorsOf(words[1..])
  }

  function RefusedOf(words: seq<Word>): seq<string> {
    if words == [] then [] else RefusalOf(words[0]) + RefusedOf(words[1..])
  }

  /** The grammar's words mean different things, and are told apart. */
  ghost predicate TellsApart(g: Grammar) {
    && KindOf(g, g.forkSession) == ForkArg && KindOf(g, g.continueLong) == ContinueArg
    && KindOf(g, g.continueShort) == ContinueArg && KindOf(g, g.resume) == ResumeArg
    && KindOf(g, g.resumeShort) == ResumeArg && KindOf(g, g.sessionId) == SessionArg
    && (forall value :: KindOf(g, g.resume + "=" + value) == ResumeIs(value))
    && (forall value :: value != "" ==> KindOf(g, g.resumeShort + "=" + value) == ResumeIs(value))
    && (forall value :: KindOf(g, g.sessionId + "=" + value) == SessionIs(value))
    && (forall flag <- g.unsupported :: KindOf(g, flag + "=") == Unsupported(flag))
  }

  /** The word is the first thing read, and nothing behind it is taken with it. */
  ghost predicate IsReadFirst(g: Grammar, w: Word, left: seq<string>) {
    && Spelled(g, w) != []
    && FirstOf(g, Spelled(g, w) + left)
       == Piece(Normalized([], ArgumentOf(w), SelectorOf(w), RefusalOf(w)), |Spelled(g, w)|)
  }

  lemma ArgumentIsRead(g: Grammar, w: Word, left: seq<string>)
    requires TellsApart(g) && CanBeSpelled(g, w) && !w.Selecting?
    ensures IsReadFirst(g, w, left)
  {
    if w.Refused? {
      assert '=' in (w.flag + "=") by { assert (w.flag + "=")[|w.flag|] == '='; }
    }
  }

  lemma ResumeIsRead(g: Grammar, w: Word, left: seq<string>)
    requires TellsApart(g) && CanBeSpelled(g, w) && w.Selecting? && w.s.Resume?
    ensures IsReadFirst(g, w, left)
  {
    var argv := Spelled(g, w) + left;
    assert argv[0] == Spelled(g, w)[0] && (!w.isJoined ==> argv[1] == w.s.value);
  }

  lemma SessionIdIsRead(g: Grammar, w: Word, left: seq<string>)
    requires TellsApart(g) && CanBeSpelled(g, w) && w.Selecting? && w.s.SessionId?
    ensures IsReadFirst(g, w, left)
  {
    var argv := Spelled(g, w) + left;
    UuidIsNoFlag(w.s.id);
    assert argv[0] == Spelled(g, w)[0] && (!w.isJoined ==> argv[1] == w.s.id);
  }

  lemma WordIsRead(g: Grammar, w: Word, left: seq<string>)
    requires TellsApart(g) && CanBeSpelled(g, w)
    ensures IsReadFirst(g, w, left)
  {
    match w
    case Argument(_) => ArgumentIsRead(g, w, left);
    case Refused(_) => ArgumentIsRead(g, w, left);
    case Selecting(SessionId(_), _, _) => SessionIdIsRead(g, w, left);
    case Selecting(Resume(_, _), _, _) => ResumeIsRead(g, w, left);
    case Selecting(_, _, _) =>
  }

  lemma SpelledTaken(g: Grammar, w: Word, left: seq<string>)
    requires TellsApart(g) && CanBeSpelled(g, w)
    ensures Normalised(g, Spelled(g, w) + left)
            == Before(Normalized([], ArgumentOf(w), SelectorOf(w), RefusalOf(w)), Normalised(g, left))
  {
    WordIsRead(g, w, left);
    assert (Spelled(g, w) + left)[|Spelled(g, w)|..] == left;
  }

  /** Where no value stands, the resume word is a bare selector, and the session word is refused. */
  lemma NoValueBehind(g: Grammar, left: seq<string>)
    requires TellsApart(g) && (left == [] || IsFlag(left[0]))
    ensures Normalised(g, [g.resume] + left) == Before(NONE.(selectors := [Resume(Bare, "")]), Normalised(g, left))
    ensures Normalised(g, [g.resumeShort] + left) == Before(NONE.(selectors := [Resume(Bare, "")]), Normalised(g, left))
    ensures Normalised(g, [g.sessionId] + left) == Bad(NeedsUuid)
  {
    assert ([g.resume] + left)[1..] == left && ([g.resumeShort] + left)[1..] == left;
    assert left != [] ==> ([g.resume] + left)[1] == left[0] && ([g.resumeShort] + left)[1] == left[0]
                          && ([g.sessionId] + left)[1] == left[0];
  }

  /** What is no uuid is refused as a session id, joined or behind its word. */
  lemma OnlyUuidsAreSessionIds(g: Grammar, value: string, left: seq<string>)
    requires TellsApart(g) && !IsUuid(value)
    ensures Normalised(g, [g.sessionId + "=" + value] + left) == Bad(NotAUuid(value))
    ensures !IsFlag(value) ==> Normalised(g, [g.sessionId, value] + left) == Bad(NotAUuid(value))
  {
    assert ([g.sessionId, value] + left)[1] == value;
  }

  lemma FirstWordAndRest(words: seq<Word>, passthrough: seq<string>)
    requires words != []
    ensures var w, rest := words[0], words[1..];
            Before(Normalized([], ArgumentOf(w), SelectorOf(w), RefusalOf(w)),
                   Good(Normalized(passthrough, ArgumentsOf(rest), SelectorsOf(rest), RefusedOf(rest))))
            == Good(Normalized(passthrough, ArgumentsOf(words), SelectorsOf(words), RefusedOf(words)))
  {
    assert [] + passthrough == passthrough;
  }

  /**
   Whatever is spelled out is read back as it was meant: arguments, selectors and refused flags
   each in their order, and what follows the double dash untouched.
   */
  lemma {:induction false} SpelledReadsBack(g: Grammar, words: seq<Word>, passthrough: seq<string>)
    requires TellsApart(g) && forall w <- words :: CanBeSpelled(g, w)
    requires passthrough != [] ==> passthrough[0] == g.dashDash
    ensures Normalised(g, AllSpelled(g, words) + passthrough)
            == Good(Normalized(passthrough, ArgumentsOf(words), SelectorsOf(words), RefusedOf(words)))
    decreases words
  {
    if words == [] {
      assert [] + passthrough == passthrough;
      PassedThroughWhole(g, passthrough);
    } else {
      FirstIsIn(words);
      SpelledReadsBack(g, words[1..], passthrough);
      ConcatAssociative(Spelled(g, words[0]), AllSpelled(g, words[1..]), passthrough);
      SpelledTaken(g, words[0], AllSpelled(g, words[1..]) + passthrough);
      FirstWordAndRest(words, passthrough);
    }
  }

  /** The words that stand for themselves. */
  function OwnWords(g: Grammar): seq<string> {
    [g.dashDash, g.forkSession, g.continueLong, g.continueShort, g.resume, g.resumeShort, g.sessionId]
  }

  /** Plain is what is no word, and no flag that takes a value with one; the short name needs a value there. */
  lemma PlainIff(g: Grammar, arg: string)
    ensures KindOf(g, arg).Plain? <==>
            && arg !in OwnWords(g) && (forall f <- g.unsupported :: IsUnlike(arg, f))
            && !HasValue(arg, g.resume) && !HasValue(arg, g.sessionId)
            && (HasValue(arg, g.resumeShort) ==> arg == g.resumeShort + "=")
  {
    UnsupportedIff(arg, g.unsupported);
    var own := OwnWords(g);
    assert arg in own <==> arg == own[0] || arg == own[1] || arg == own[2] || arg == own[3] || arg == own[4]
                           || arg == own[5] || arg == own[6];
  }

  /** No word holds an equals sign, and no two words are the same. */
  ghost predicate IsWellWorded(g: Grammar) {
    && NoDup(OwnWords(g) + g.unsupported)
    && forall w <- OwnWords(g) + g.unsupported :: '=' !in w
  }

  lemma EqualsAt(arg: string, flag: string)
    requires HasValue(arg, flag)
    ensures '=' in arg && |flag| < |arg| && arg[|flag|] == '=' && arg == flag + arg[|flag|..]
  {
    assert arg[|flag|] == (flag + "=")[|flag|];
  }

  /** What stands before the first equals sign is the one flag the argument can have. */
  lemma FlagBeforeEquals(a: string, value: string, flag: string)
    requires '=' !in a && '=' !in flag
    ensures HasValue(a + "=" + value, flag) <==> flag == a
    ensures !HasValue(a, flag)
  {
    var arg := a + ("=" + value);
    assert a + "=" + value == arg;
    assert arg[|a|] == '=' && arg[..|a|] == a;
    if HasValue(arg, flag) {
      EqualsAt(arg, flag);
    }
    if HasValue(a, flag) {
      EqualsAt(a, flag);
    }
  }

  lemma {:induction false} UnsupportedIs(flags: seq<string>, a: string, value: string)
    requires '=' !in a && (forall f <- flags :: '=' !in f) && NoDup(flags)
    ensures UnsupportedFlag(a, flags) == if a in flags then Some(a) else None
    ensures UnsupportedFlag(a + "=" + value, flags) == if a in flags then Some(a) else None
    decreases flags
  {
    if flags != [] {
      FirstIsIn(flags);
      FlagBeforeEquals(a, value, flags[0]);
      assert (a + "=" + value)[|a|] == '=';
      assert forall f <- flags[1..] :: f in flags;
      UnsupportedIs(flags[1..], a, value);
    }
  }

  /** What an own word is read as, alone and with a value joined on. */
  lemma OwnWordIs(g: Grammar, k: nat, value: string)
    requires IsWellWorded(g) && 0 < k < 7
    ensures var w := OwnWords(g)[k];
      && KindOf(g, w) == (if k == 1 then ForkArg else if k <= 3 then ContinueArg else if k <= 5 then ResumeArg
                          else SessionArg)
      && (k == 4 || (k == 5 && value != "") ==> KindOf(g, w + "=" + value) == ResumeIs(value))
      && (k == 6 ==> KindOf(g, w + "=" + value) == SessionIs(value))
  {
    var own, all := OwnWords(g), OwnWords(g) + g.unsupported;
    var w := own[k];
    var arg := w + "=" + value;
    assert all[k] == w && w in all;
    forall f <- g.unsupported ensures '=' !in f && f != w {
      var j :| 0 <= j < |g.unsupported| && g.unsupported[j] == f;
      assert all[7 + j] == f;
    }
    forall i, j | 0 <= i < j < |g.unsupported| ensures g.unsupported[i] != g.unsupported[j] {
      assert all[7 + i] != all[7 + j];
    }
    UnsupportedIs(g.unsupported, w, value);
    forall j | 0 <= j < 7 ensures '=' !in own[j] && (j != k ==> own[j] != w) && (HasValue(arg, own[j]) <==> j == k)
      && !HasValue(w, own[j]) && arg != own[j]
    {
      assert all[j] == own[j] && own[j] in all;
      FlagBeforeEquals(w, value, own[j]);
      assert arg[|w|] == '=';
    }
    assert own[0] == g.dashDash && own[1] == g.forkSession && own[2] == g.continueLong && own[3] == g.continueShort;
    assert own[4] == g.resume && own[5] == g.resumeShort && own[6] == g.sessionId;
    assert HasValue(arg, w) ==> ValueOf(arg, w) == value;
  }

  lemma RefusedIs(g: Grammar, flag: string)
    requires IsWellWorded(g) && flag in g.unsupported
    ensures KindOf(g, flag + "=") == Unsupported(flag)
  {
    var all := OwnWords(g) + g.unsupported;
    forall f <- g.unsupported ensures '=' !in f {
      assert f in all;
    }
    forall i, j | 0 <= i < j < |g.unsupported| ensures g.unsupported[i] != g.unsupported[j] {
      assert all[7 + i] == g.unsupported[i] && all[7 + j] == g.unsupported[j];
    }
    UnsupportedIs(g.unsupported, flag, "");
    assert flag + "=" + "" == flag + "=" && (flag + "=")[|flag|] == '=';
    assert all[0] == g.dashDash && g.dashDash in all;
  }

  /** Distinct words without an equals sign can be told apart. */
  lemma WellWordedTellsApart(g: Grammar)
    requires IsWellWorded(g)
    ensures TellsApart(g)
  {
    var own := OwnWords(g);
    assert own[1] == g.forkSession && own[2] == g.continueLong && own[3] == g.continueShort;
    assert own[4] == g.resume && own[5] == g.resumeShort && own[6] == g.sessionId;
    OwnWordIs(g, 1, "");
    OwnWordIs(g, 2, "");
    OwnWordIs(g, 3, "");
    OwnWordIs(g, 4, "");
    OwnWordIs(g, 5, "");
    OwnWordIs(g, 6, "");
    forall value
      ensures KindOf(g, g.resume + "=" + value) == ResumeIs(value)
      ensures value != "" ==> KindOf(g, g.resumeShort + "=" + value) == ResumeIs(value)
      ensures KindOf(g, g.sessionId + "=" + value) == SessionIs(value)
    {
      OwnWordIs(g, 4, value);
      OwnWordIs(g, 5, value);
      OwnWordIs(g, 6, value);
    }
    forall flag <- g.unsupported ensures KindOf(g, flag + "=") == Unsupported(flag) {
      RefusedIs(g, flag);
    }
  }

  /** A number made of a word's length and its second or third letter. */
  function Code(w: string): int
    requires |w| > 1
  {
    |w| * 1000 + (if |w| > 2 then w[2] else w[1]) as int
  }

  lemma CodesTellApart(words: seq<string>, codes: seq<int>)
    requires |words| == |codes| && NoDup(codes)
    requires forall k :: 0 <= k < |words| ==> |words[k]| > 1 && Code(words[k]) == codes[k]
    ensures NoDup(words)
  {
  }

  const CLAUDE_WORDS := ["--", "--fork-session", "--continue", "-c", "--resume", "-r", "--session-id", "--teleport",
                         "--worktree", "-w", "--from-pr", "--cloud", "--remote-control", "--tmux"]
  const CLAUDE_CODES := [2045, 14102, 10099, 2099, 8114, 2114, 12115, 10116, 10119, 2119, 9102, 7099, 16114, 6116]

  lemma FirstWordsHaveTheirCodes()
    ensures forall k :: 0 <= k < 7 ==> |CLAUDE_WORDS[k]| > 1 && Code(CLAUDE_WORDS[k]) == CLAUDE_CODES[k]
    ensures forall k :: 0 <= k < 7 ==> '=' !in CLAUDE_WORDS[k]
  {
  }

  lemma LastWordsHaveTheirCodes()
    ensures forall k :: 7 <= k < 14 ==> |CLAUDE_WORDS[k]| > 1 && Code(CLAUDE_WORDS[k]) == CLAUDE_CODES[k]
    ensures forall k :: 7 <= k < 14 ==> '=' !in CLAUDE_WORDS[k]
  {
  }

  lemma ClaudeWords()
    ensures OwnWords(CLAUDE_GRAMMAR) + CLAUDE_GRAMMAR.unsupported == CLAUDE_WORDS
  {
  }

  /** The supported program's words are distinct and hold no equals sign. */
  lemma ClaudeIsWellWorded()
    ensures IsWellWorded(CLAUDE_GRAMMAR)
  {
    ClaudeWords();
    FirstWordsHaveTheirCodes();
    LastWordsHaveTheirCodes();
    CodesTellApart(CLAUDE_WORDS, CLAUDE_CODES);
  }

  // ----- Splitting the rest into options and prompt -----

  /** The options known to take one value, and the flags known to take none. */
  datatype OptionTable = OptionTable(oneValue: set<string>, zeroArity: set<string>)

  const CLAUDE_OPTIONS := OptionTable(
    { "--agent", "--agents", "--append-system-prompt", "--append-system-prompt-file", "--autocompact", "--debug-file",
      "--effort", "--environment", "--fallback-model", "--input-format", "--json-schema", "--max-budget-usd", "--model",
      "-n", "--name", "--output-format", "--permission-mode", "--plugin-dir", "--plugin-url",
      "--remote-control-session-name-prefix", "--setting-sources", "--settings", "--system-prompt" },
    { "--allow-dangerously-skip-permissions", "--ax-screen-reader", "--background", "--bare", "--bg", "--brief",
      "--chrome",
      "--dangerously-skip-permissions", "--disable-slash-commands", "--exclude-dynamic-system-prompt-sections",
      "--forward-subagent-text", "-h", "--help", "--ide", "--include-hook-events", "--include-partial-messages",
      "--no-chrome", "--no-session-persistence", "--replay-user-messages", "--safe-mode", "--strict-mcp-config", "-v",
      "--verbose", "--version" })

  function NameOf(token: string): string {
    if token == "" || token[0] == '=' then "" else [token[0]] + NameOf(token[1..])
  }

  predicate IsPrintFlag(token: string) {
    NameOf(token) == "-p" || NameOf(token) == "--print"
  }

  /** A name ends before the first equals sign. */
  lemma {:induction false} NameEndsAtEquals(token: string)
    ensures var name := NameOf(token); name <= token && '=' !in name && (|name| < |token| ==> token[|name|] == '=')
    decreases token
  {
    if token != "" && token[0] != '=' {
      NameEndsAtEquals(token[1..]);
    }
  }

  lemma NameIs(token: string, name: string)
    requires '=' !in name
    ensures NameOf(token) == name <==> token == name || HasValue(token, name)
  {
    NameEndsAtEquals(token);
    if HasValue(token, name) {
      EqualsAt(token, name);
    }
  }

  lemma PrintFlagIff(token: string)
    ensures IsPrintFlag(token) <==>
            token == "-p" || token == "--print" || HasValue(token, "-p") || HasValue(token, "--print")
  {
    NameIs(token, "-p");
    NameIs(token, "--print");
  }

  datatype Tag = OptionToken | PromptToken | DroppedToken | PrintFlag

  function NonFlags(tokens: seq<string>): (n: nat)
    ensures n <= |tokens| && (forall k :: 0 <= k < n ==> !IsFlag(tokens[k])) && (n < |tokens| ==> IsFlag(tokens[n]))
  {
    if tokens == [] || IsFlag(tokens[0]) then 0 else 1 + NonFlags(tokens[1..])
  }

  /** What the tokens at the head are taken for, and how many are taken together. */
  function HeadOf(o: OptionTable, rest: seq<string>): (h: (Tag, nat))
    requires rest != []
    ensures 1 <= h.1 <= |rest|
  {
    var token := rest[0];
    if !IsFlag(token) then (PromptToken, 1)
    else if IsPrintFlag(token) then (PrintFlag, 1)
    else if '=' in token then (OptionToken, 1)
    else if token in o.oneValue then (OptionToken, Min(2, |rest|))
    else if token in o.zeroArity then (OptionToken, 1)
    else if ValueFollows(rest) then (DroppedToken, 1 + NonFlags(rest[1..]))
    else (OptionToken, 1)
  }

  function Copies(t: Tag, n: nat): (tags: seq<Tag>)
    ensures |tags| == n && forall k :: 0 <= k < n ==> tags[k] == t
  {
    seq(n, _ => t)
  }

  /** What every token of the rest is taken for. */
  function TagsOf(o: OptionTable, rest: seq<string>): (tags: seq<Tag>)
    ensures |tags| == |rest|
    decreases |rest|
  {
    if rest == [] then []
    else
      var h := HeadOf(o, rest);
      Copies(h.0, h.1) + TagsOf(o, rest[h.1..])
  }

  function Tagged(tokens: seq<string>, tags: seq<Tag>, t: Tag): seq<string>
    requires |tokens| == |tags|
  {
    if tokens == [] then [] else (if tags[0] == t then [tokens[0]] else []) + Tagged(tokens[1..], tags[1..], t)
  }

  /** The tokens of the rest that are taken for t, in their order. */
  function TakenFor(o: OptionTable, rest: seq<string>, t: Tag): seq<string> {
    Tagged(rest, TagsOf(o, rest), t)
  }

  lemma {:induction false} TaggedConcat(a: seq<string>, b: seq<string>, s: seq<Tag>, u: seq<Tag>, t: Tag)
    requires |a| == |s| && |b| == |u|
    ensures Tagged(a + b, s + u, t) == Tagged(a, s, t) + Tagged(b, u, t)
    decreases a
  {
    if a == [] {
      assert a + b == b && s + u == u;
    } else {
      assert (a + b)[1..] == a[1..] + b && (s + u)[1..] == s[1..] + u;
      TaggedConcat(a[1..], b, s[1..], u, t);
    }
  }

  lemma {:induction false} TaggedAlike(a: seq<string>, s: seq<Tag>, tag: Tag, t: Tag)
    requires |a| == |s| && forall k :: 0 <= k < |s| ==> s[k] == tag
    ensures Tagged(a, s, t) == if t == tag then a else []
    decreases a
  {
    if a != [] {
      TaggedAlike(a[1..], s[1..], tag, t);
    }
  }

  /** The head's tokens all go to one list; the others are split on their own. */
  lemma HeadThenRest(o: OptionTable, rest: seq<string>, t: Tag)
    requires rest != []
    ensures var h := HeadOf(o, rest);
            TakenFor(o, rest, t) == (if t == h.0 then rest[..h.1] else []) + TakenFor(o, rest[h.1..], t)
  {
    var h := HeadOf(o, rest);
    assert rest == rest[..h.1] + rest[h.1..];
    TaggedConcat(rest[..h.1], rest[h.1..], Copies(h.0, h.1), TagsOf(o, rest[h.1..]), t);
    TaggedAlike(rest[..h.1], Copies(h.0, h.1), h.0, t);
  }

  datatype Split = Split(options: seq<string>, promptTokens: seq<string>, dropped: seq<string>)

  function PassedTokens(passthrough: seq<string>): seq<string> {
    if passthrough == [] then []
    else (if passthrough[0] != "--" then [passthrough[0]] else []) + PassedTokens(passthrough[1..])
  }

  lemma {:induction false} PassedConcat(a: seq<string>, b: seq<string>)
    ensures PassedTokens(a + b) == PassedTokens(a) + PassedTokens(b)
    decreases a
  {
    if a == [] {
      assert a + b == b;
    } else {
      assert (a + b)[0] == a[0] && (a + b)[1..] == a[1..] + b;
      PassedConcat(a[1..], b);
      ConcatAssociative(if a[0] != "--" then [a[0]] else [], PassedTokens(a[1..]), PassedTokens(b));
    }
  }

  lemma {:induction false} PassedAlike(a: seq<string>)
    requires "--" !in a
    ensures PassedTokens(a) == a
    decreases a
  {
    if a != [] {
      FirstIsIn(a);
      PassedAlike(a[1..]);
      assert a == [a[0]] + a[1..];
    }
  }

  lemma DashesGo(tokens: seq<string>)
    requires tokens != [] && tokens[0] == "--"
    ensures PassedTokens(tokens) == PassedTokens(tokens[1..])
  {
    assert [] + PassedTokens(tokens[1..]) == PassedTokens(tokens[1..]);
  }

  /** Of what was passed through, the double dashes go and all else stays in order. */
  lemma PassedWithoutDashes(a: seq<string>, b: seq<string>)
    requires "--" !in a
    ensures PassedTokens(a) == a && PassedTokens(a + (["--"] + b)) == a + PassedTokens(b)
  {
    PassedAlike(a);
    PassedConcat(a, ["--"] + b);
    DashesGo(["--"] + b);
    assert (["--"] + b)[1..] == b;
  }

  function SplitOf(o: OptionTable, rest: seq<string>, passthrough: seq<string>): Split {
    Split(TakenFor(o, rest, OptionToken), PassedTokens(passthrough) + TakenFor(o, rest, PromptToken),
          TakenFor(o, rest, DroppedToken))
  }

  method PassedPrompt(passthrough: seq<string>) returns (tokens: seq<string>)
    ensures tokens == PassedTokens(passthrough)
  {
    tokens := [];
    for k := 0 to |passthrough|
      invariant tokens + PassedTokens(passthrough[k..]) == PassedTokens(passthrough)
    {
      assert passthrough[k..][1..] == passthrough[k + 1..];
      if passthrough[k] != "--" {
        ConcatAssociative(tokens, [passthrough[k]], PassedTokens(passthrough[k + 1..]));
        tokens := tokens + [passthrough[k]];
      }
    }
  }

  /** What the tokens from i on are taken for, up to the end of their block. */
  method TakeBlock(o: OptionTable, rest: seq<string>, i: nat) returns (tag: Tag, j: nat)
    requires i < |rest|
    ensures i < j <= |rest| && HeadOf(o, rest[i..]) == (tag, j - i)
  {
    var token := rest[i];
    var left := rest[i..];
    assert left[0] == token && (|left| > 1 ==> left[1] == rest[i + 1]);
    if !IsFlag(token) {
      return PromptToken, i + 1;
    }
    if IsPrintFlag(token) {
      return PrintFlag, i + 1;
    }
    if '=' in token {
      return OptionToken, i + 1;
    }
    if token in o.oneValue {
      return OptionToken, Min(i + 2, |rest|);
    }
    if token in o.zeroArity {
      return OptionToken, i + 1;
    }
    if i + 1 < |rest| && !IsFlag(rest[i + 1]) {
      j := i + 1;
      while j < |rest| && !IsFlag(rest[j])
        invariant i < j <= |rest| && j - i - 1 + NonFlags(rest[j..]) == NonFlags(rest[i + 1..])
      {
        assert rest[j..][1..] == rest[j + 1..];
        j := j + 1;
      }
      assert left[1..] == rest[i + 1..];
      return DroppedToken, j;
    }
    return OptionToken, i + 1;
  }

  /** The lists after the blocks before i. */
  ghost predicate SplitSoFar(o: OptionTable, rest: seq<string>, i: nat, s: Split, passed: seq<string>)
    requires i <= |rest|
  {
    && s.options + TakenFor(o, rest[i..], OptionToken) == TakenFor(o, rest, OptionToken)
    && s.promptTokens + TakenFor(o, rest[i..], PromptToken) == passed + TakenFor(o, rest, PromptToken)
    && s.dropped + TakenFor(o, rest[i..], DroppedToken) == TakenFor(o, rest, DroppedToken)
  }

  lemma ListGrows(o: OptionTable, rest: seq<string>, i: nat, j: nat, list: seq<string>, tag: Tag, t: Tag)
    requires i < j <= |rest| && HeadOf(o, rest[i..]) == (tag, j - i)
    ensures list + TakenFor(o, rest[i..], t)
            == (if t == tag then list + rest[i..j] else list) + TakenFor(o, rest[j..], t)
  {
    var left := rest[i..];
    HeadThenRest(o, left, t);
    assert left[j - i..] == rest[j..] && left[..j - i] == rest[i..j];
    if t == tag {
      ConcatAssociative(list, rest[i..j], TakenFor(o, rest[j..], t));
    } else {
      assert [] + TakenFor(o, rest[j..], t) == TakenFor(o, rest[j..], t);
    }
  }

  method SplitLaunchArgv(o: OptionTable, rest: seq<string>, passthrough: seq<string>) returns (s: Split)
    ensures s == SplitOf(o, rest, passthrough)
  {
    var passed := PassedPrompt(passthrough);
    s := Split([], passed, []);
    var i := 0;
    assert rest[0..] == rest;
    while i < |rest|
      invariant i <= |rest| && SplitSoFar(o, rest, i, s, passed)
    {
      var tag, j := TakeBlock(o, rest, i);
      ListGrows(o, rest, i, j, s.options, tag, OptionToken);
      ListGrows(o, rest, i, j, s.promptTokens, tag, PromptToken);
      ListGrows(o, rest, i, j, s.dropped, tag, DroppedToken);
      match tag {
        case OptionToken => s := s.(options := s.options + rest[i..j]);
        case PromptToken => s := s.(promptTokens := s.promptTokens + rest[i..j]);
        case DroppedToken => s := s.(dropped := s.dropped + rest[i..j]);
        case PrintFlag =>
      }
      i := j;
    }
    assert rest[i..] == [];
  }

  function Count(tokens: seq<string>, x: string): nat {
    if tokens == [] then 0 else (if tokens[0] == x then 1 else 0) + Count(tokens[1..], x)
  }

  lemma {:induction false} CountConcat(a: seq<string>, b: seq<string>, x: string)
    ensures Count(a + b, x) == Count(a, x) + Count(b, x)
    decreases a
  {
    if a == [] {
      assert a + b == b;
    } else {
      assert (a + b)[1..] == a[1..] + b;
      CountConcat(a[1..], b, x);
    }
  }

  lemma {:induction false} CountedIsIn(tokens: seq<string>, x: string)
    ensures Count(tokens, x) > 0 <==> x in tokens
    decreases tokens
  {
    if tokens != [] {
      CountedIsIn(tokens[1..], x);
    }
  }

  lemma OneTagMore(tokens: seq<string>, tags: seq<Tag>, t: Tag, x: string)
    requires |tokens| == |tags| && tokens != []
    ensures Count(Tagged(tokens, tags, t), x)
            == (if tags[0] == t && tokens[0] == x then 1 else 0) + Count(Tagged(tokens[1..], tags[1..], t), x)
  {
    var first := if tags[0] == t then [tokens[0]] else [];
    CountConcat(first, Tagged(tokens[1..], tags[1..], t), x);
    assert first != [] ==> first[1..] == [];
  }

  lemma {:induction false} TagsPartition(tokens: seq<string>, tags: seq<Tag>, x: string)
    requires |tokens| == |tags|
    ensures Count(Tagged(tokens, tags, OptionToken), x) + Count(Tagged(tokens, tags, PromptToken), x)
            + Count(Tagged(tokens, tags, DroppedToken), x) + Count(Tagged(tokens, tags, PrintFlag), x)
                == Count(tokens, x)
    decreases tokens
  {
    if tokens != [] {
      TagsPartition(tokens[1..], tags[1..], x);
      OneTagMore(tokens, tags, OptionToken, x);
      OneTagMore(tokens, tags, PromptToken, x);
      OneTagMore(tokens, tags, DroppedToken, x);
      OneTagMore(tokens, tags, PrintFlag, x);
    }
  }

  lemma HeadsAre(o: OptionTable, rest: seq<string>)
    requires rest != []
    ensures HeadOf(o, rest).0.PrintFlag? ==> HeadOf(o, rest).1 == 1 && IsFlag(rest[0]) && IsPrintFlag(rest[0])
    ensures HeadOf(o, rest).0.PromptToken? ==> HeadOf(o, rest).1 == 1 && !IsFlag(rest[0])
  {
  }

  /** Every token of the rest is taken for exactly one thing, and only print flags go nowhere. */
  lemma {:induction false} EveryTokenAccountedFor(o: OptionTable, rest: seq<string>, x: string)
    ensures Count(TakenFor(o, rest, OptionToken), x) + Count(TakenFor(o, rest, PromptToken), x)
            + Count(TakenFor(o, rest, DroppedToken), x) + Count(TakenFor(o, rest, PrintFlag), x) == Count(rest, x)
    ensures forall t :: t in TakenFor(o, rest, PrintFlag) ==> IsFlag(t) && IsPrintFlag(t)
    ensures forall t :: t in TakenFor(o, rest, PromptToken) ==> !IsFlag(t)
    decreases |rest|
  {
    TagsPartition(rest, TagsOf(o, rest), x);
    if rest != [] {
      var h := HeadOf(o, rest);
      EveryTokenAccountedFor(o, rest[h.1..], x);
      HeadThenRest(o, rest, PromptToken);
      HeadThenRest(o, rest, PrintFlag);
      HeadsAre(o, rest);
    }
  }

  // ----- The arguments of a replacement child -----

  /** The last option waits for a value that is not there. */
  predicate EndsOpen(o: OptionTable, rest: seq<string>)
    decreases |rest|
  {
    if rest == [] then false
    else if |rest| == 1 then HeadOf(o, rest).0.OptionToken? && '=' !in rest[0] && rest[0] in o.oneValue
    else EndsOpen(o, rest[HeadOf(o, rest).1..])
  }

  function Options(o: OptionTable, rest: seq<string>): seq<string> {
    TakenFor(o, rest, OptionToken)
  }

  lemma {:induction false} OptionsBeginWithAFlag(o: OptionTable, rest: seq<string>)
    ensures Options(o, rest) != [] ==> IsFlag(Options(o, rest)[0])
    decreases |rest|
  {
    if rest != [] {
      HeadThenRest(o, rest, OptionToken);
      OptionsBeginWithAFlag(o, rest[HeadOf(o, rest).1..]);
    }
  }

  /** An option's block stays a block when another flag comes behind it, unless it waits for its value. */
  lemma OptionBlockAgain(o: OptionTable, rest: seq<string>, left: seq<string>)
    requires rest != [] && HeadOf(o, rest).0.OptionToken? && (left == [] || IsFlag(left[0]))
    requires |rest| == 1 ==> !EndsOpen(o, rest) || left == []
    ensures HeadOf(o, rest[..HeadOf(o, rest).1] + left) == HeadOf(o, rest)
  {
  }

  /** A block of options at the head, and what is behind it. */
  lemma BlockThen(o: OptionTable, block: seq<string>, more: seq<string>, t: Tag)
    requires block != [] && HeadOf(o, block + more) == (OptionToken, |block|)
    ensures TakenFor(o, block + more, t) == (if t.OptionToken? then block else []) + TakenFor(o, more, t)
  {
    HeadThenRest(o, block + more, t);
    assert (block + more)[..|block|] == block && (block + more)[|block|..] == more;
  }

  function OpenEnd(o: OptionTable, rest: seq<string>, tail: seq<string>): (n: nat)
    ensures n <= |tail|
  {
    if EndsOpen(o, rest) && tail != [] then 1 else 0
  }

  /** What t gets of the options before the tail and of the tail, n tokens of which go to the options. */
  function Behind(o: OptionTable, options: seq<string>, tail: seq<string>, n: nat, t: Tag): seq<string>
    requires n <= |tail|
  {
    (if t.OptionToken? then options + tail[..n] else []) + TakenFor(o, tail[n..], t)
  }

  lemma OpenOptionThenTail(o: OptionTable, rest: seq<string>, tail: seq<string>, t: Tag)
    requires |rest| == 1 && EndsOpen(o, rest) && tail != []
    ensures TakenFor(o, Options(o, rest) + tail, t) == Behind(o, Options(o, rest), tail, 1, t)
  {
    HeadThenRest(o, rest, OptionToken);
    assert Options(o, rest) == rest;
    assert rest + tail == (rest + tail[..1]) + tail[1..];
    BlockThen(o, rest + tail[..1], tail[1..], t);
  }

  lemma ClosedOptionThenTail(o: OptionTable, rest: seq<string>, tail: seq<string>, t: Tag)
    requires rest != [] && HeadOf(o, rest).0.OptionToken? && (tail == [] || IsFlag(tail[0]))
    requires |rest| == 1 ==> !EndsOpen(o, rest) || tail == []
    requires var left := rest[HeadOf(o, rest).1..];
             TakenFor(o, Options(o, left) + tail, t) == Behind(o, Options(o, left), tail, OpenEnd(o, left, tail), t)
    ensures TakenFor(o, Options(o, rest) + tail, t) == Behind(o, Options(o, rest), tail, OpenEnd(o, rest, tail), t)
  {
    var h := HeadOf(o, rest);
    var block, options := rest[..h.1], Options(o, rest[h.1..]);
    var n := OpenEnd(o, rest, tail);
    HeadThenRest(o, rest, OptionToken);
    OptionsBeginWithAFlag(o, rest[h.1..]);
    OptionBlockAgain(o, rest, options + tail);
    BlockThen(o, block, options + tail, t);
    ConcatAssociative(block, options, tail);
    ConcatAssociative(block, options, tail[..n]);
    ConcatAssociative(block, options + tail[..n], TakenFor(o, tail[n..], t));
  }

  /** Behind the options of a split, what begins with a flag is split as on its own, unless they wait for a value. */
  lemma {:induction false} OptionsThenTail(o: OptionTable, rest: seq<string>, tail: seq<string>, t: Tag)
    requires tail == [] || IsFlag(tail[0])
    ensures TakenFor(o, Options(o, rest) + tail, t) == Behind(o, Options(o, rest), tail, OpenEnd(o, rest, tail), t)
    decreases |rest|
  {
    if rest == [] {
      assert [] + tail == tail == tail[0..];
    } else {
      var h := HeadOf(o, rest);
      var left := rest[h.1..];
      HeadThenRest(o, rest, OptionToken);
      OptionsThenTail(o, left, tail, t);
      if !h.0.OptionToken? {
        assert Options(o, rest) == Options(o, left);
      } else if |rest| == 1 && EndsOpen(o, rest) && tail != [] {
        OpenOptionThenTail(o, rest, tail, t);
      } else {
        ClosedOptionThenTail(o, rest, tail, t);
      }
    }
  }

  /** Splitting a split's own options gives them back: nothing is dropped and nothing is a prompt. */
  lemma SplitIsIdempotent(o: OptionTable, rest: seq<string>, passthrough: seq<string>)
    ensures var options := SplitOf(o, rest, passthrough).options;
            SplitOf(o, options, []) == Split(options, [], []) && TakenFor(o, options, PrintFlag) == []
  {
    var options := Options(o, rest);
    assert options + [] == options;
    OptionsThenTail(o, rest, [], OptionToken);
    OptionsThenTail(o, rest, [], PromptToken);
    OptionsThenTail(o, rest, [], DroppedToken);
    OptionsThenTail(o, rest, [], PrintFlag);
  }

  function ReplacementChildArgv(g: Grammar, o: OptionTable, rest: seq<string>, passthrough: seq<string>, id: string)
    : seq<string>
  {
    ChildArgv(SplitOf(o, rest, passthrough).options, [g.resume, id], [])
  }

  lemma OptionsArePlain(g: Grammar, o: OptionTable, rest: seq<string>)
    requires AllPlain(g, rest)
    ensures AllPlain(g, Options(o, rest))
  {
    forall a | a in Options(o, rest) ensures a in rest {
      EveryTokenAccountedFor(o, rest, a);
      CountedIsIn(Options(o, rest), a);
      CountedIsIn(rest, a);
    }
  }

  /** A replacement child's arguments read back as the options alone, one uuid selector, and no prompt. */
  lemma ReplacementReadsBack(g: Grammar, o: OptionTable, argv: seq<string>, id: string)
    requires ResumesBySelector(g) && Normalised(g, argv).Good? && IsUuid(id)
    ensures var n := Normalised(g, argv).n;
            var options := SplitOf(o, n.rest, n.passthrough).options;
            Normalised(g, ReplacementChildArgv(g, o, n.rest, n.passthrough, id))
            == Good(Normalized([], options, [Resume(Uuid, id)], []))
            && SplitOf(o, options, []).promptTokens == []
  {
    var n := Normalised(g, argv).n;
    var options := Options(o, n.rest);
    NormalisedShape(g, argv);
    OptionsArePlain(g, o, n.rest);
    PlainThenSelector(g, options, id, []);
    SplitIsIdempotent(o, n.rest, n.passthrough);
  }

  /** A flag the table does not know and that is no print flag and has no value of its own. */
  predicate IsUnknownFlag(o: OptionTable, flag: string) {
    IsFlag(flag) && !IsPrintFlag(flag) && '=' !in flag && flag !in o.oneValue && flag !in o.zeroArity
  }

  lemma SelectorIsDropped(g: Grammar, o: OptionTable, id: string)
    requires IsUuid(id) && IsUnknownFlag(o, g.resume)
    ensures TakenFor(o, [g.resume, id], PromptToken) == []
  {
    var tail := [g.resume, id];
    UuidIsNoFlag(id);
    assert tail[1..] == [id] && NonFlags([id]) == 1 by {
      assert NonFlags([id][1..]) == 0;
    }
    assert HeadOf(o, tail) == (DroppedToken, 2);
    HeadThenRest(o, tail, PromptToken);
    assert tail[2..] == [];
  }

  /**
   Read as a whole, a replacement child's arguments hold no prompt exactly when the launch did
   not end in an option that waits for its value: then that option takes the selector for its
   value, and the session id is left as a prompt.
   */
  lemma ReplacementHoldsNoPromptIff(g: Grammar, o: OptionTable, rest: seq<string>, passthrough: seq<string>, id: string)
    requires IsUuid(id) && IsUnknownFlag(o, g.resume)
    ensures SplitOf(o, ReplacementChildArgv(g, o, rest, passthrough, id), []).promptTokens
            == if EndsOpen(o, rest) then [id] else []
  {
    var tail := [g.resume, id];
    UuidIsNoFlag(id);
    SelectorIsDropped(g, o, id);
    OptionsThenTail(o, rest, tail, PromptToken);
    assert ReplacementChildArgv(g, o, rest, passthrough, id) == Options(o, rest) + tail;
    assert tail[0..] == tail && tail[1..] == [id];
    HeadThenRest(o, [id], PromptToken);
    assert [id][..1] == [id] && [id][1..] == [];
  }

  lemma NameOfResume()
    ensures !IsPrintFlag(CLAUDE_GRAMMAR.resume)
  {
    var resume := CLAUDE_GRAMMAR.resume;
    assert resume[0] == '-' && resume[1..][0] == '-' && resume[1..][1..] == resume[2..] && resume[2..][0] == 'r';
    var name := NameOf(resume);
    assert name == ['-'] + (['-'] + NameOf(resume[2..]));
    assert |name| >= 3 && name[2] == 'r';
    assert "--print"[2] == 'p' && |"-p"| == 2;
  }

  lemma ResumeIsNoOneValueOption()
    ensures CLAUDE_GRAMMAR.resume !in CLAUDE_OPTIONS.oneValue
  {
    assert CLAUDE_GRAMMAR.resume[2] == 'r' && "--agents"[2] == 'a' && "--effort"[2] == 'e';
  }

  lemma ResumeIsNoZeroArityFlag()
    ensures CLAUDE_GRAMMAR.resume !in CLAUDE_OPTIONS.zeroArity
  {
    assert CLAUDE_GRAMMAR.resume[2] == 'r' && "--chrome"[2] == 'c';
  }

  /** The supported program's table does not know the selector. */
  lemma ClaudeResumeIsUnknown()
    ensures IsUnknownFlag(CLAUDE_OPTIONS, CLAUDE_GRAMMAR.resume)
  {
    NameOfResume();
    ResumeIsNoOneValueOption();
    ResumeIsNoZeroArityFlag();
    assert CLAUDE_GRAMMAR.resume[0] == '-';
  }

  /** A launch that ends in the model option without its value leaves the session id as a prompt. */
  lemma ModelWithoutValue(id: string)
    requires IsUuid(id)
    ensures SplitOf(CLAUDE_OPTIONS, ReplacementChildArgv(CLAUDE_GRAMMAR, CLAUDE_OPTIONS, ["--model"], [], id), [])
            .promptTokens == [id]
  {
    var model := "--model";
    assert "--model" in CLAUDE_OPTIONS.oneValue;
    assert model[0] == '-' && model[1..][0] == '-' && model[1..][1..] == model[2..] && model[2..][0] == 'm';
    var name := NameOf(model);
    assert name == ['-'] + (['-'] + NameOf(model[2..]));
    assert |name| >= 3 && name[2] == 'm' && "--print"[2] == 'p';
    assert EndsOpen(CLAUDE_OPTIONS, [model]);
    ClaudeResumeIsUnknown();
    ReplacementHoldsNoPromptIff(CLAUDE_GRAMMAR, CLAUDE_OPTIONS, [model], [], id);
  }
}
