/** The article pipeline as its threads interleave (src/Poster.cpp, src/ArticleBuilder.cpp).

    Every poster has a builder thread and a thread for its connections. A step is what a
    thread does between two points where it may have to wait for a lock. Critical
    sections that take no other lock inside are one step; the others are spelled out.
    Articles are numbered in the order their slices are read. */
module Pipeline {
  import opened Options

  type Article = nat

  /** The builder thread, in onPrepareNextArticle. It holds the buffer lock from
      WantsDisk to Encoding, and the disk lock while Reading. */
  datatype Builder =
    | Resting
    | Marking
    | WantsBuffer
    | WantsDisk
    | Reading
    | Encoding(made: Option<Article>)
    | Handing(made: Option<Article>)
  {
    /** Between the two sections that set and clear _articleBuildInProgress. */
    predicate InFlight() { !Resting? && !Marking? }

    predicate HoldsBuffer() { WantsDisk? || Reading? || Encoding? }

    function InHand(): Option<Article> {
      match this
      case Encoding(made) => made
      case Handing(made) => made
      case _ => None
    }
  }

  /** The connections' thread, in Poster::getNextArticle for connection `con`. It holds
      the queue lock from Testing on, except while Sleeping on the condition. */
  datatype Connector =
    | Free
    | Entering(con: nat)
    | Testing(con: nat)
    | Sleeping(con: nat)
    | Woken(con: nat)
    | Deciding(con: nat)
    | FallsBack(con: nat)
    | FallbackWantsDisk(con: nat)
    | FallbackReading(con: nat)
    | FallbackEncoding(con: nat, made: Option<Article>)
  {
    predicate HoldsQueue() { Testing? || Deciding? || InFallback() }

    predicate InFallback() { FallsBack? || UsesBuilder() }

    /** Inside ArticleBuilder::getNextArticle, where it holds the buffer lock. */
    predicate UsesBuilder() { FallbackWantsDisk? || FallbackReading? || FallbackEncoding? }

    function InHand(): Option<Article> {
      if FallbackEncoding? then made else None
    }
  }

  datatype Poster = Poster(
    queue: seq<Article>, inProgress: bool, builder: Builder, connector: Connector,
    held: seq<Option<Article>>)

  /** `total` slices can be read; `read` of them have been. */
  datatype State = State(
    posters: seq<Poster>, read: nat, total: nat, noMoreFiles: bool, paused: bool, stopped: bool,
    posted: seq<Article>, failed: seq<Article>)

  datatype Action =
    | Build(poster: nat)
    | Ask(poster: nat, con: nat)
    | Advance(poster: nat)
    | WakeUp(poster: nat)
    | Settle(poster: nat, con: nat, ok: bool)
    | SetPaused(on: bool)
    | Stop

  // ---- One step ----

  predicate DiskIsFree(s: State) {
    forall p | p in s.posters :: !p.builder.Reading? && !p.connector.FallbackReading?
  }

  predicate BuilderCanMove(s: State, p: Poster) {
    match p.builder
    case Marking => !p.connector.HoldsQueue()
    case WantsBuffer => !p.connector.UsesBuilder()
    case WantsDisk => DiskIsFree(s)
    case Handing(_) => !p.connector.HoldsQueue()
    case _ => true
  }

  predicate ConnectorCanMove(s: State, p: Poster) {
    match p.connector
    case Free => false
    case Sleeping(_) => false
    case FallsBack(_) => !p.builder.HoldsBuffer()
    case FallbackWantsDisk(_) => DiskIsFree(s)
    case _ => true
  }

  predicate Enabled(s: State, a: Action) {
    match a
    case Build(i) => i < |s.posters| && BuilderCanMove(s, s.posters[i])
    case Ask(i, c) =>
      && i < |s.posters| && c < |s.posters[i].held| && s.posters[i].held[c].None?
      && s.posters[i].connector.Free?
    case Advance(i) => i < |s.posters| && ConnectorCanMove(s, s.posters[i])
    case WakeUp(i) => i < |s.posters| && s.posters[i].connector.Sleeping?
    case Settle(i, c, _) => i < |s.posters| && c < |s.posters[i].held| && s.posters[i].held[c].Some?
    case SetPaused(_) => true
    case Stop => true
  }

  /** The slice a reader gets under the disk lock, if there is one left. */
  function NextSlice(s: State): Option<Article> {
    if s.read < s.total then Some(s.read) else None
  }

  function AfterRead(s: State): State {
    if s.read < s.total then s.(read := s.read + 1) else s.(noMoreFiles := true)
  }

  function Enqueued(queue: seq<Article>, made: Option<Article>): seq<Article> {
    if made.Some? then queue + [made.value] else queue
  }

  function BuilderMoves(s: State, p: Poster): Poster {
    match p.builder
    case Resting => p.(builder := Marking)
    case Marking => p.(builder := WantsBuffer, inProgress := true)
    case WantsBuffer => p.(builder := WantsDisk)
    case WantsDisk => p.(builder := Reading)
    case Reading => p.(builder := Encoding(NextSlice(s)))
    case Encoding(made) => p.(builder := Handing(made))
    case Handing(made) =>
      p.(builder := Resting, inProgress := false, queue := Enqueued(p.queue, made),
         connector := if p.connector.Sleeping? then Woken(p.connector.con) else p.connector)
  }

  function Given(p: Poster, con: nat, made: Option<Article>): Poster {
    p.(connector := Free, held := if con < |p.held| then p.held[con := made] else p.held)
  }

  function ConnectorMoves(s: State, p: Poster): Poster {
    match p.connector
    case Entering(c) => p.(connector := if s.stopped || s.paused then Free else Testing(c))
    case Testing(c) =>
      p.(connector := if p.queue == [] && p.inProgress && !s.stopped && !s.paused then Sleeping(c) else Deciding(c))
    case Woken(c) => p.(connector := Testing(c))
    case Deciding(c) =>
      if s.stopped || s.paused then p.(connector := Free)
      else if p.queue != [] then Given(p.(queue := p.queue[1..]), c, Some(p.queue[0]))
      else if !s.noMoreFiles then p.(connector := FallsBack(c))
      else p.(connector := Free)
    case FallsBack(c) => p.(connector := FallbackWantsDisk(c))
    case FallbackWantsDisk(c) => p.(connector := FallbackReading(c))
    case FallbackReading(c) => p.(connector := FallbackEncoding(c, NextSlice(s)))
    case FallbackEncoding(c, made) => Given(p, c, made)
    case _ => p
  }

  function With(s: State, i: nat, p: Poster): State
    requires i < |s.posters|
  {
    s.(posters := s.posters[i := p])
  }

  function Next(s: State, a: Action): State {
    if !Enabled(s, a) then s else
      match a
      case Build(i) =>
        With(if s.posters[i].builder.Reading? then AfterRead(s) else s, i, BuilderMoves(s, s.posters[i]))
      case Ask(i, c) => With(s, i, s.posters[i].(connector := Entering(c)))
      case Advance(i) =>
        With(if s.posters[i].connector.FallbackReading? then AfterRead(s) else s, i, ConnectorMoves(s, s.posters[i]))
      case WakeUp(i) => With(s, i, s.posters[i].(connector := Woken(s.posters[i].connector.con)))
      case Settle(i, c, ok) =>
        var p := s.posters[i];
        var s := With(s, i, p.(held := p.held[c := None]));
        if ok then s.(posted := s.posted + [p.held[c].value]) else s.(failed := s.failed + [p.held[c].value])
      case SetPaused(on) => s.(paused := on)
      case Stop => s.(stopped := true)
  }

  function After(s: State, actions: seq<Action>): State {
    if actions == [] then s else Next(After(s, actions[..|actions| - 1]), actions[|actions| - 1])
  }

  // ---- Where the articles are ----

  function Is(x: Option<Article>, a: Article): nat { if x == Some(a) then 1 else 0 }

  function Occurs(xs: seq<Article>, a: Article): nat {
    if xs == [] then 0 else Is(Some(xs[0]), a) + Occurs(xs[1..], a)
  }

  function HeldBy(held: seq<Option<Article>>, a: Article): nat {
    if held == [] then 0 else HeldBy(held[..|held| - 1], a) + Is(held[|held| - 1], a)
  }

  /** How often this poster has the article: in its builder's hands, built by a connection
      that fell back, in its queue, or held by one of its connections. */
  function At(p: Poster, a: Article): nat {
    Is(p.builder.InHand(), a) + Is(p.connector.InHand(), a) + Occurs(p.queue, a) + HeldBy(p.held, a)
  }

  function InPosters(posters: seq<Poster>, a: Article): nat {
    if posters == [] then 0 else InPosters(posters[..|posters| - 1], a) + At(posters[|posters| - 1], a)
  }

  function Copies(s: State, a: Article): nat {
    InPosters(s.posters, a) + Occurs(s.posted, a) + Occurs(s.failed, a)
  }

  /** Every slice read is in exactly one place, and no other article exists. */
  ghost predicate Conserved(s: State) {
    forall a: Article :: Copies(s, a) == if a < s.read then 1 else 0
  }

  // ---- What the locks keep ----

  predicate FlagIsRight(p: Poster) {
    p.inProgress <==> p.builder.InFlight()
  }

  predicate BufferIsExclusive(p: Poster) {
    !(p.builder.HoldsBuffer() && p.connector.UsesBuilder())
  }

  predicate ConnectionExists(p: Poster) {
    !p.connector.Free? ==> p.connector.con < |p.held| && p.held[p.connector.con].None?
  }

  /** A thread that sleeps will be woken: its builder is at work. */
  predicate SleepsForAReason(p: Poster) {
    p.connector.Sleeping? ==> p.builder.InFlight()
  }

  predicate Local(p: Poster) {
    FlagIsRight(p) && BufferIsExclusive(p) && ConnectionExists(p) && SleepsForAReason(p)
  }

  predicate DiskIsExclusive(posters: seq<Poster>) {
    && (forall p | p in posters :: !(p.builder.Reading? && p.connector.FallbackReading?))
    && (forall i, k | 0 <= i < k < |posters| :: !(AtDisk(posters[i]) && AtDisk(posters[k])))
  }

  predicate AtDisk(p: Poster) {
    p.builder.Reading? || p.connector.FallbackReading?
  }

  ghost predicate Inv(s: State) {
    && (forall p | p in s.posters :: Local(p)) && DiskIsExclusive(s.posters)
    && Conserved(s) && s.read <= s.total && (s.noMoreFiles ==> s.read == s.total)
  }

  predicate Initial(s: State) {
    && (forall p | p in s.posters ::
          p.queue == [] && !p.inProgress && p.builder.Resting? && p.connector.Free?
          && forall a | a in p.held :: a.None?)
    && s.read == 0 && !s.noMoreFiles && s.posted == [] && s.failed == []
  }

  // ---- One step moves an article, or reads the next one ----

  lemma {:induction false} OccursAppend(xs: seq<Article>, x: Article, a: Article)
    ensures Occurs(xs + [x], a) == Occurs(xs, a) + Is(Some(x), a)
  {
    if xs != [] {
      OccursAppend(xs[1..], x, a);
      assert (xs + [x])[1..] == xs[1..] + [x];
    }
  }

  lemma {:induction false} HeldUpdate(held: seq<Option<Article>>, c: nat, x: Option<Article>, a: Article)
    requires c < |held|
    ensures HeldBy(held[c := x], a) == HeldBy(held, a) - Is(held[c], a) + Is(x, a)
  {
    var last := |held| - 1;
    if c == last {
      assert held[c := x][..last] == held[..last];
    } else {
      HeldUpdate(held[..last], c, x, a);
      assert held[c := x][..last] == held[..last][c := x];
    }
  }

  lemma {:induction false} PostersUpdate(posters: seq<Poster>, i: nat, p: Poster, a: Article)
    requires i < |posters|
    ensures InPosters(posters[i := p], a) == InPosters(posters, a) - At(posters[i], a) + At(p, a)
  {
    hide At;
    var last := |posters| - 1;
    if i == last {
      assert posters[i := p][..last] == posters[..last];
    } else {
      PostersUpdate(posters[..last], i, p, a);
      assert posters[i := p][..last] == posters[..last][i := p];
    }
  }

  lemma {:induction false} NothingHeld(held: seq<Option<Article>>, a: Article)
    requires forall x | x in held :: x.None?
    ensures HeldBy(held, a) == 0
  {
    if held != [] {
      NothingHeld(held[..|held| - 1], a);
      assert held[|held| - 1] in held;
    }
  }

  lemma {:induction false} NothingAnywhere(posters: seq<Poster>, a: Article)
    requires forall p | p in posters ::
               p.queue == [] && p.builder.Resting? && p.connector.Free? && forall x | x in p.held :: x.None?
    ensures InPosters(posters, a) == 0
  {
    if posters != [] {
      NothingAnywhere(posters[..|posters| - 1], a);
      assert posters[|posters| - 1] in posters;
      NothingHeld(posters[|posters| - 1].held, a);
    }
  }

  /** A step of a builder moves its article along, or reads a new one. */
  lemma BuilderKeepsPlaces(s: State, p: Poster, a: Article)
    ensures At(BuilderMoves(s, p), a) == At(p, a) + if p.builder.Reading? then Is(NextSlice(s), a) else 0
  {
    if p.builder.Handing? && p.builder.made.Some? {
      OccursAppend(p.queue, p.builder.made.value, a);
    }
  }

  lemma ConnectorKeepsPlaces(s: State, p: Poster, a: Article)
    requires ConnectionExists(p)
    ensures At(ConnectorMoves(s, p), a)
         == At(p, a) + if p.connector.FallbackReading? then Is(NextSlice(s), a) else 0
  {
    match p.connector
    case Deciding(c) =>
      if p.queue != [] {
        HeldUpdate(p.held, c, Some(p.queue[0]), a);
      }
    case FallbackEncoding(c, made) => HeldUpdate(p.held, c, made, a);
    case _ =>
  }

  lemma CopiesUpdate(s: State, i: nat, p: Poster, a: Article)
    requires i < |s.posters|
    ensures Copies(With(s, i, p), a) == Copies(s, a) - At(s.posters[i], a) + At(p, a)
  {
    hide At, Occurs;
    PostersUpdate(s.posters, i, p, a);
  }

  /** Only a read makes a copy, and only of the slice it read. */
  lemma StepKeepsCopies(s: State, act: Action, a: Article)
    requires forall p | p in s.posters :: ConnectionExists(p)
    ensures var next := Next(s, act);
            && (next.read == s.read || next.read == s.read + 1)
            && Copies(next, a) == Copies(s, a) + if next.read > s.read then Is(Some(s.read), a) else 0
  {
    hide At, ConnectorCanMove, BuilderCanMove, ConnectionExists;
    if Enabled(s, act) {
      match act
      case Build(i) =>
        BuilderKeepsPlaces(s, s.posters[i], a);
        CopiesUpdate(s, i, BuilderMoves(s, s.posters[i]), a);
        hide BuilderMoves;
      case Advance(i) =>
        assert s.posters[i] in s.posters;
        ConnectorKeepsPlaces(s, s.posters[i], a);
        CopiesUpdate(s, i, ConnectorMoves(s, s.posters[i]), a);
        hide ConnectorMoves;
      case Ask(i, c) => AskKeepsPlaces(s, i, c, a);
      case WakeUp(i) => WakeKeepsPlaces(s, i, a);
      case Settle(i, c, ok) => SettleKeepsPlaces(s, i, c, ok, a);
      case _ =>
    }
  }

  lemma AskKeepsPlaces(s: State, i: nat, c: nat, a: Article)
    requires i < |s.posters| && s.posters[i].connector.Free?
    ensures Copies(With(s, i, s.posters[i].(connector := Entering(c))), a) == Copies(s, a)
  {
    CopiesUpdate(s, i, s.posters[i].(connector := Entering(c)), a);
  }

  lemma WakeKeepsPlaces(s: State, i: nat, a: Article)
    requires i < |s.posters| && s.posters[i].connector.Sleeping?
    ensures Copies(With(s, i, s.posters[i].(connector := Woken(s.posters[i].connector.con))), a) == Copies(s, a)
  {
    CopiesUpdate(s, i, s.posters[i].(connector := Woken(s.posters[i].connector.con)), a);
  }

  lemma SettleKeepsPlaces(s: State, i: nat, c: nat, ok: bool, a: Article)
    requires Enabled(s, Settle(i, c, ok))
    ensures Copies(Next(s, Settle(i, c, ok)), a) == Copies(s, a)
  {
    var p := s.posters[i];
    CopiesUpdate(s, i, p.(held := p.held[c := None]), a);
    HeldUpdate(p.held, c, None, a);
    OccursAppend(if ok then s.posted else s.failed, p.held[c].value, a);
    hide HeldBy, InPosters;
  }

  lemma StepIsConserved(s: State, act: Action)
    requires Conserved(s) && forall p | p in s.posters :: ConnectionExists(p)
    ensures Conserved(Next(s, act))
  {
    hide Copies, ConnectionExists, Next;
    forall a: Article ensures Copies(Next(s, act), a) == if a < Next(s, act).read then 1 else 0 {
      StepKeepsCopies(s, act, a);
    }
  }

  // ---- The locks ----

  lemma BuilderStaysLocal(s: State, p: Poster)
    requires Local(p) && BuilderCanMove(s, p)
    ensures Local(BuilderMoves(s, p))
  {
  }

  lemma ConnectorStaysLocal(s: State, p: Poster)
    requires Local(p) && ConnectorCanMove(s, p)
    ensures Local(ConnectorMoves(s, p))
  {
  }

  lemma OthersStayLocal(posters: seq<Poster>, i: nat, p: Poster)
    requires i < |posters| && Local(p) && forall q | q in posters :: Local(q)
    ensures forall q | q in posters[i := p] :: Local(q)
  {
  }

  lemma StepStaysLocal(s: State, act: Action)
    requires forall p | p in s.posters :: Local(p)
    ensures forall p | p in Next(s, act).posters :: Local(p)
  {
    hide BuilderMoves, ConnectorMoves, BuilderCanMove, ConnectorCanMove, AfterRead;
    if Enabled(s, act) {
      match act
      case Build(i) =>
        BuilderStaysLocal(s, s.posters[i]);
        OthersStayLocal(s.posters, i, BuilderMoves(s, s.posters[i]));
        SamePosters(s);
      case Advance(i) =>
        ConnectorStaysLocal(s, s.posters[i]);
        OthersStayLocal(s.posters, i, ConnectorMoves(s, s.posters[i]));
        SamePosters(s);
      case Ask(i, c) =>
        assert s.posters[i] in s.posters;
        OthersStayLocal(s.posters, i, s.posters[i].(connector := Entering(c)));
      case WakeUp(i) =>
        assert s.posters[i] in s.posters;
        OthersStayLocal(s.posters, i, s.posters[i].(connector := Woken(s.posters[i].connector.con)));
      case Settle(i, c, ok) =>
        var p := s.posters[i];
        assert p in s.posters;
        OthersStayLocal(s.posters, i, p.(held := p.held[c := None]));
      case _ =>
    }
  }

  lemma SamePosters(s: State)
    ensures AfterRead(s).posters == s.posters && AfterRead(s).paused == s.paused && AfterRead(s).stopped == s.stopped
  {
  }

  lemma DiskStaysExclusive(s: State, i: nat, p: Poster)
    requires i < |s.posters| && DiskIsExclusive(s.posters)
    requires !(p.builder.Reading? && p.connector.FallbackReading?)
    requires AtDisk(p) && !AtDisk(s.posters[i]) ==> DiskIsFree(s)
    ensures DiskIsExclusive(s.posters[i := p])
  {
  }

  lemma StepKeepsDisk(s: State, act: Action)
    requires DiskIsExclusive(s.posters) && forall p | p in s.posters :: Local(p)
    ensures DiskIsExclusive(Next(s, act).posters)
  {
    if Enabled(s, act) {
      SamePosters(s);
      match act
      case Build(i) =>
        assert s.posters[i] in s.posters;
        hide DiskIsExclusive, Local, AfterRead;
        BuilderAtDisk(s, i);
        DiskStaysExclusive(s, i, BuilderMoves(s, s.posters[i]));
        hide BuilderMoves;
      case Advance(i) =>
        assert s.posters[i] in s.posters;
        hide DiskIsExclusive, Local, AfterRead;
        ConnectorAtDisk(s, i);
        DiskStaysExclusive(s, i, ConnectorMoves(s, s.posters[i]));
        hide ConnectorMoves;
      case Ask(i, c) => DiskStaysExclusive(s, i, s.posters[i].(connector := Entering(c)));
      case WakeUp(i) => DiskStaysExclusive(s, i, s.posters[i].(connector := Woken(s.posters[i].connector.con)));
      case Settle(i, c, ok) =>
        var p := s.posters[i];
        DiskStaysExclusive(s, i, p.(held := p.held[c := None]));
      case _ =>
    }
  }

  lemma BuilderAtDisk(s: State, i: nat)
    requires i < |s.posters| && Local(s.posters[i]) && BuilderCanMove(s, s.posters[i])
    requires s.posters[i] in s.posters && DiskIsExclusive(s.posters)
    ensures var p := BuilderMoves(s, s.posters[i]);
            && !(p.builder.Reading? && p.connector.FallbackReading?)
            && (AtDisk(p) && !AtDisk(s.posters[i]) ==> DiskIsFree(s))
  {
  }

  lemma ConnectorAtDisk(s: State, i: nat)
    requires i < |s.posters| && Local(s.posters[i]) && ConnectorCanMove(s, s.posters[i])
    requires s.posters[i] in s.posters && DiskIsExclusive(s.posters)
    ensures var p := ConnectorMoves(s, s.posters[i]);
            && !(p.builder.Reading? && p.connector.FallbackReading?)
            && (AtDisk(p) && !AtDisk(s.posters[i]) ==> DiskIsFree(s))
  {
  }

  lemma StepKeepsInv(s: State, act: Action)
    requires Inv(s)
    ensures Inv(Next(s, act))
  {
    StepStaysLocal(s, act);
    StepKeepsDisk(s, act);
    StepIsConserved(s, act);
    StepKeepsSource(s, act);
    hide Next, Local, DiskIsExclusive, Conserved;
  }

  lemma StepKeepsSource(s: State, act: Action)
    requires s.read <= s.total && (s.noMoreFiles ==> s.read == s.total)
    ensures var t := Next(s, act);
            t.total == s.total && t.read <= t.total && (t.noMoreFiles ==> t.read == t.total)
  {
  }

  lemma InitialIsInv(s: State)
    requires Initial(s)
    ensures Inv(s)
  {
    forall a: Article ensures Copies(s, a) == 0 {
      NothingAnywhere(s.posters, a);
    }
  }

  /** Conservation, on every run: each slice read is in the hands of one builder, in one
      queue, held by one connection, posted or failed, and it is there once. */
  lemma {:induction false} EveryArticleInOnePlace(s: State, actions: seq<Action>)
    requires Initial(s)
    ensures Inv(After(s, actions))
    ensures forall a: Article :: Copies(After(s, actions), a) == if a < After(s, actions).read then 1 else 0
  {
    if actions == [] {
      InitialIsInv(s);
    } else {
      EveryArticleInOnePlace(s, actions[..|actions| - 1]);
      StepKeepsInv(After(s, actions[..|actions| - 1]), actions[|actions| - 1]);
    }
    hide Initial, Local, DiskIsExclusive, Copies, Next;
  }

  // ---- Nobody waits for ever ----

  /** The two threads of a poster. */
  datatype Thread = OfBuilder(poster: nat) | OfConnector(poster: nat)

  predicate Exists(s: State, t: Thread) { t.poster < |s.posters| }

  predicate CanMove(s: State, t: Thread)
    requires Exists(s, t)
  {
    if t.OfBuilder? then BuilderCanMove(s, s.posters[t.poster]) else ConnectorCanMove(s, s.posters[t.poster])
  }

  /** It is inside one of the functions modelled. */
  predicate IsBusy(s: State, t: Thread)
    requires Exists(s, t)
  {
    if t.OfBuilder? then !s.posters[t.poster].builder.Resting? else !s.posters[t.poster].connector.Free?
  }

  /** `u` holds the lock that `t` waits for, or will wake it from the condition. */
  predicate WaitsFor(s: State, t: Thread, u: Thread)
    requires Exists(s, t) && Exists(s, u)
  {
    var p, q := s.posters[t.poster], s.posters[u.poster];
    match t
    case OfBuilder(i) =>
      || ((p.builder.Marking? || p.builder.Handing?) && u == OfConnector(i) && p.connector.HoldsQueue())
      || (p.builder.WantsBuffer? && u == OfConnector(i) && p.connector.UsesBuilder())
      || (p.builder.WantsDisk? && HoldsDisk(s, u))
    case OfConnector(i) =>
      || (p.connector.FallsBack? && u == OfBuilder(i) && p.builder.HoldsBuffer())
      || (p.connector.FallbackWantsDisk? && HoldsDisk(s, u))
      || (p.connector.Sleeping? && u == OfBuilder(i) && p.builder.InFlight())
  }

  predicate HoldsDisk(s: State, t: Thread)
    requires Exists(s, t)
  {
    if t.OfBuilder? then s.posters[t.poster].builder.Reading? else s.posters[t.poster].connector.FallbackReading?
  }

  /** A thread that can move, and that `t` waits for through at most one other. */
  predicate Frees(s: State, t: Thread, via: Thread, u: Thread)
    requires Exists(s, t)
  {
    && Exists(s, via) && Exists(s, u) && CanMove(s, u)
    && (u == t || WaitsFor(s, t, u) || (WaitsFor(s, t, via) && WaitsFor(s, via, u)))
  }

  /** Whoever is at the disk can move. */
  lemma DiskHolder(s: State) returns (u: Thread)
    requires !DiskIsFree(s)
    ensures Exists(s, u) && HoldsDisk(s, u) && CanMove(s, u) && IsBusy(s, u)
  {
    var p :| p in s.posters && (p.builder.Reading? || p.connector.FallbackReading?);
    var k :| 0 <= k < |s.posters| && s.posters[k] == p;
    u := if p.builder.Reading? then OfBuilder(k) else OfConnector(k);
  }

  /** No deadlock: from every thread at work, the chain of what it waits for ends, after two
      links at most, in a thread that is at work and can move. */
  lemma NeverStuck(s: State, t: Thread) returns (via: Thread, u: Thread)
    requires Inv(s) && Exists(s, t) && IsBusy(s, t)
    ensures Frees(s, t, via, u) && IsBusy(s, u)
  {
    var p := s.posters[t.poster];
    assert p in s.posters && Local(p);
    hide Inv, DiskIsFree;
    via, u := t, t;
    if CanMove(s, t) {
      return;
    }
    if t.OfBuilder? {
      u := if p.builder.WantsDisk? then t else OfConnector(t.poster);
      if p.builder.WantsDisk? {
        u := DiskHolder(s);
      } else if !CanMove(s, u) {
        via := u;
        u := DiskHolder(s);
      }
    } else {
      if p.connector.FallbackWantsDisk? {
        u := DiskHolder(s);
      } else {
        u := OfBuilder(t.poster);
        if !CanMove(s, u) {
          via := u;
          u := DiskHolder(s);
        }
      }
    }
  }

  // ---- A null article ----

  /** What the flag lets a connection conclude once it has left the waiting loop. */
  predicate Sure(s: State, p: Poster) {
    && (p.connector.Deciding? ==> p.queue != [] || !p.inProgress || s.paused || s.stopped)
    && (p.connector.InFallback() ==> p.queue == [] && !p.inProgress)
    && (p.connector.FallbackEncoding? && p.connector.made.None? ==> s.noMoreFiles)
  }

  predicate AllSure(s: State) {
    forall p | p in s.posters :: Sure(s, p)
  }

  /** The pause ends between the loop a connection left because of it and the test that
      follows the loop. */
  predicate Flickers(s: State, act: Action) {
    && act == SetPaused(false) && s.paused && !s.stopped
    && exists p :: p in s.posters && p.connector.Deciding? && p.queue == [] && p.inProgress
  }

  lemma BuilderStaysSure(s: State, p: Poster)
    requires Local(p) && Sure(s, p) && BuilderCanMove(s, p)
    ensures Sure(if p.builder.Reading? then AfterRead(s) else s, BuilderMoves(s, p))
  {
  }

  lemma ConnectorStaysSure(s: State, p: Poster)
    requires Local(p) && Sure(s, p) && ConnectorCanMove(s, p) && (s.noMoreFiles ==> s.read == s.total)
    ensures Sure(if p.connector.FallbackReading? then AfterRead(s) else s, ConnectorMoves(s, p))
  {
  }

  lemma ReadStaysSure(s: State, p: Poster)
    requires Sure(s, p)
    ensures Sure(AfterRead(s), p)
  {
  }

  lemma SureOthers(s: State, t: State, i: nat, p: Poster)
    requires AllSure(s) && i < |s.posters| && t.posters == s.posters && Sure(t, p)
    requires t == s || t == AfterRead(s)
    ensures AllSure(With(t, i, p))
  {
    forall q | q in t.posters[i := p] ensures Sure(With(t, i, p), q) {
      if q != p {
        assert q in s.posters;
        ReadStaysSure(s, q);
      }
      SureIgnores(t, With(t, i, p), q);
    }
  }

  lemma SureIgnores(s: State, t: State, p: Poster)
    requires s.paused == t.paused && s.stopped == t.stopped && s.noMoreFiles == t.noMoreFiles
    ensures Sure(s, p) <==> Sure(t, p)
  {
  }

  /** A step leaves every connection sure of what it concludes, if and only if it is not
      such a flicker. */
  lemma StaysSureIff(s: State, act: Action)
    requires Inv(s) && AllSure(s)
    ensures AllSure(Next(s, act)) <==> !Flickers(s, act)
  {
    hide Conserved, DiskIsExclusive, BuilderMoves, ConnectorMoves, BuilderCanMove, ConnectorCanMove;
    if Enabled(s, act) {
      match act
      case Build(i) => BuildStaysSure(s, i);
      case Advance(i) => AdvanceStaysSure(s, i);
      case Ask(i, c) =>
        assert s.posters[i] in s.posters;
        SureOthers(s, s, i, s.posters[i].(connector := Entering(c)));
      case WakeUp(i) =>
        assert s.posters[i] in s.posters;
        SureOthers(s, s, i, s.posters[i].(connector := Woken(s.posters[i].connector.con)));
      case Settle(i, c, ok) => SettleStaysSure(s, i, c, ok);
      case SetPaused(on) => PauseStaysSureIff(s, on);
      case Stop =>
    }
  }

  lemma BuildStaysSure(s: State, i: nat)
    requires Inv(s) && AllSure(s) && Enabled(s, Build(i))
    ensures AllSure(Next(s, Build(i)))
  {
    var p := s.posters[i];
    assert p in s.posters;
    hide Inv, BuilderMoves, Sure, AfterRead;
    BuilderStaysSure(s, p);
    SamePosters(s);
    SureOthers(s, if p.builder.Reading? then AfterRead(s) else s, i, BuilderMoves(s, p));
  }

  lemma AdvanceStaysSure(s: State, i: nat)
    requires Inv(s) && AllSure(s) && Enabled(s, Advance(i))
    ensures AllSure(Next(s, Advance(i)))
  {
    var p := s.posters[i];
    assert p in s.posters;
    hide Conserved, DiskIsExclusive, Local, ConnectorMoves, Sure, AfterRead;
    ConnectorStaysSure(s, p);
    SamePosters(s);
    SureOthers(s, if p.connector.FallbackReading? then AfterRead(s) else s, i, ConnectorMoves(s, p));
  }

  lemma SettleStaysSure(s: State, i: nat, c: nat, ok: bool)
    requires AllSure(s) && Enabled(s, Settle(i, c, ok))
    ensures AllSure(Next(s, Settle(i, c, ok)))
  {
    var p := s.posters[i];
    assert p in s.posters;
    SureOthers(s, s, i, p.(held := p.held[c := None]));
  }

  lemma PauseStaysSureIff(s: State, on: bool)
    requires AllSure(s)
    ensures AllSure(s.(paused := on)) <==> !Flickers(s, SetPaused(on))
  {
    var t := s.(paused := on);
    if Flickers(s, SetPaused(on)) {
      var p :| p in s.posters && p.connector.Deciding? && p.queue == [] && p.inProgress;
      assert p in t.posters && !Sure(t, p);
    } else {
      forall p | p in t.posters ensures Sure(t, p) {
        assert Sure(s, p);
      }
    }
  }

  /** With its next step, outside pause and stop, the connection leaves getNextArticle with
      nothing. */
  predicate ReturnsNull(s: State, i: nat) {
    && Enabled(s, Advance(i)) && !s.paused && !s.stopped
    && var q, con := Next(s, Advance(i)).posters[i], s.posters[i].connector.con;
       q.connector.Free? && (con < |q.held| ==> q.held[con].None?)
  }

  /** A flicker is never harmless: the connection it caught is next told that nothing is
      left, or builds an article itself, while its builder has one in flight. */
  lemma FlickerIsWrong(s: State, act: Action) returns (i: nat)
    requires Inv(s) && Flickers(s, act)
    ensures var t := Next(s, act);
            && i < |t.posters| && t.posters[i].builder.InFlight()
            && (ReturnsNull(t, i) || Next(t, Advance(i)).posters[i].connector.InFallback())
            && Next(t, Advance(i)).posters[i].builder.InFlight()
  {
    hide Conserved, DiskIsExclusive;
    var p :| p in s.posters && p.connector.Deciding? && p.queue == [] && p.inProgress;
    i :| 0 <= i < |s.posters| && s.posters[i] == p;
    assert Local(p);
  }

  /** A null article then means the end: no slice is left to read, the queue is empty and
      the builder has none in its hands. */
  lemma NullMeansDone(s: State, i: nat)
    requires Inv(s) && AllSure(s) && ReturnsNull(s, i)
    ensures s.read == s.total && s.posters[i].queue == [] && !s.posters[i].builder.InFlight()
  {
    var p := s.posters[i];
    assert p in s.posters && Sure(s, p) && Local(p);
    hide Conserved, DiskIsExclusive;
  }

  /** A connection is turned away at once exactly under a pause or a stop, and it sleeps
      exactly while its queue is empty and its builder has an article in flight. */
  lemma WaitsIff(s: State, i: nat)
    requires Inv(s) && Enabled(s, Advance(i))
    ensures var p, q := s.posters[i], Next(s, Advance(i)).posters[i];
            && (p.connector.Entering? ==> (q.connector.Free? <==> s.paused || s.stopped))
            && (p.connector.Entering? && !q.connector.Free? ==> q.connector == Testing(p.connector.con))
            && (p.connector.Testing? ==>
                  (q.connector.Sleeping? <==> p.queue == [] && p.builder.InFlight() && !s.paused && !s.stopped))
            && (p.connector.Testing? && !q.connector.Sleeping? ==> q.connector == Deciding(p.connector.con))
            && (p.connector.Woken? ==> q.connector == Testing(p.connector.con))
  {
    hide Conserved, DiskIsExclusive;
    assert Local(s.posters[i]);
  }

  /** The stages a connection that builds its own article still has to go through. */
  function StagesLeft(c: Connector): nat {
    match c
    case FallsBack(_) => 4
    case FallbackWantsDisk(_) => 3
    case FallbackReading(_) => 2
    case FallbackEncoding(_, _) => 1
    case _ => 0
  }

  /** While slices are left, no connection goes away empty-handed: it is given the head of
      its queue, or goes on to build an article itself. */
  lemma DecidesToServe(s: State, i: nat)
    requires Inv(s) && AllSure(s) && Enabled(s, Advance(i)) && !s.paused && !s.stopped
    requires s.posters[i].connector.Deciding?
    ensures var p, q, con := s.posters[i], Next(s, Advance(i)).posters[i], s.posters[i].connector.con;
            && con < |q.held|
            && (p.queue != [] ==> q.connector.Free? && q.held[con] == Some(p.queue[0]) && p.queue == [p.queue[0]] + q.queue)
            && (p.queue == [] && s.read < s.total ==>
                  StagesLeft(q.connector) == 4 && q.connector.con == con && !q.builder.InFlight())
  {
    hide Conserved, DiskIsExclusive;
    var p := s.posters[i];
    assert p in s.posters && Sure(s, p) && Local(p);
  }

  /** Building goes on stage by stage. What is read under the disk lock is the next slice,
      if one is left; it is that article which the connection is given. */
  lemma FallbackServes(s: State, i: nat)
    requires Inv(s) && Enabled(s, Advance(i)) && s.posters[i].connector.InFallback()
    ensures var p, t := s.posters[i], Next(s, Advance(i));
            var q, con := t.posters[i], s.posters[i].connector.con;
            && con < |q.held| && StagesLeft(q.connector) == StagesLeft(p.connector) - 1
            && (StagesLeft(p.connector) > 1 ==> q.connector.con == con)
            && (StagesLeft(p.connector) == 2 && s.read < s.total ==>
                  q.connector.InHand() == Some(s.read) && t.read == s.read + 1)
            && (StagesLeft(p.connector) == 1 ==> q.connector.Free? && q.held[con] == p.connector.InHand())
  {
    hide Conserved, DiskIsExclusive;
    assert Local(s.posters[i]);
  }

  /** Nobody else moves it: every other step leaves the connection where it is, or wakes it.
      It is woken by the builder that hands its article over, or of itself. */
  lemma OthersLeaveIt(s: State, act: Action, i: nat)
    requires i < |s.posters| && !s.posters[i].connector.Free? && act != Advance(i)
    ensures var c, d := s.posters[i].connector, Next(s, act).posters[i].connector;
            if c.Sleeping? && Enabled(s, act) && (act == WakeUp(i) || (act == Build(i) && s.posters[i].builder.Handing?))
            then d == Woken(c.con) else d == c
  {
    hide DiskIsFree;
  }

  /** The flag alone keeps a falling back connection out of its builder's way: the buffer
      lock is never contended. */
  lemma FlagExcludes(s: State, p: Poster)
    requires Inv(s) && AllSure(s) && p in s.posters && p.connector.InFallback()
    ensures !p.builder.InFlight()
  {
    hide Conserved, DiskIsExclusive;
    assert Local(p) && Sure(s, p);
  }

  lemma {:induction false} RunsStaySure(s: State, actions: seq<Action>)
    requires Initial(s)
    requires forall k | 0 <= k < |actions| :: !Flickers(After(s, actions[..k]), actions[k])
    ensures AllSure(After(s, actions))
  {
    if actions != [] {
      var init := actions[..|actions| - 1];
      forall k | 0 <= k < |init| ensures !Flickers(After(s, init[..k]), init[k]) {
        assert init[..k] == actions[..k];
      }
      RunsStaySure(s, init);
      EveryArticleInOnePlace(s, init);
      hide Initial, Inv, AllSure, Flickers, Next;
      StaysSureIff(After(s, init), actions[|actions| - 1]);
    }
  }

  // ---- In order ----

  predicate Increasing(xs: seq<Article>) { forall i, k | 0 <= i < k < |xs| :: xs[i] < xs[k] }

  /** A poster's queue holds articles in the order of their slices, and its builder only
      later ones; none was made of a slice that is not read yet. */
  predicate InOrder(p: Poster, read: nat) {
    && Increasing(p.queue) && (forall a | a in p.queue :: a < read)
    && (p.builder.InHand().Some? ==>
          p.builder.InHand().value < read && forall a | a in p.queue :: a < p.builder.InHand().value)
  }

  ghost predicate AllInOrder(s: State) { forall p | p in s.posters :: InOrder(p, s.read) }

  lemma BuilderStaysInOrder(s: State, p: Poster)
    requires InOrder(p, s.read)
    ensures InOrder(BuilderMoves(s, p), if p.builder.Reading? then AfterRead(s).read else s.read)
  {
    if p.builder.Handing? && p.builder.made.Some? {
      forall i | 0 <= i < |p.queue| ensures p.queue[i] < p.builder.made.value {
        assert p.queue[i] in p.queue;
      }
    }
  }

  lemma ConnectorStaysInOrder(s: State, p: Poster)
    requires InOrder(p, s.read)
    ensures InOrder(ConnectorMoves(s, p), s.read)
  {
    var q := ConnectorMoves(s, p);
    assert q.builder == p.builder && (q.queue == p.queue || (p.queue != [] && q.queue == p.queue[1..])) by {
      ConnectorTakesHead(s, p);
    }
    hide ConnectorMoves;
    if q.queue != p.queue {
      forall a | a in q.queue ensures a in p.queue {
        var k :| 0 <= k < |q.queue| && q.queue[k] == a;
        assert p.queue[k + 1] == a;
      }
    }
  }

  lemma ConnectorTakesHead(s: State, p: Poster)
    ensures var q := ConnectorMoves(s, p);
            q.builder == p.builder && (q.queue == p.queue || (p.queue != [] && q.queue == p.queue[1..]))
  {
  }

  lemma ReadStaysInOrder(p: Poster, read: nat, read': nat)
    requires InOrder(p, read) && read <= read'
    ensures InOrder(p, read')
  {
  }

  lemma OneStaysInOrder(s: State, t: State, i: nat, p: Poster)
    requires AllInOrder(s) && i < |s.posters| && t.posters == s.posters[i := p] && s.read <= t.read && InOrder(p, t.read)
    ensures AllInOrder(t)
  {
    hide InOrder;
    forall q | q in t.posters ensures InOrder(q, t.read) {
      if q != p {
        assert q in s.posters;
        ReadStaysInOrder(q, s.read, t.read);
      }
    }
  }

  /** On every run, so a connection is always given the oldest article of its queue. */
  lemma StepStaysInOrder(s: State, act: Action)
    requires AllInOrder(s)
    ensures AllInOrder(Next(s, act))
  {
    hide InOrder, BuilderMoves, ConnectorMoves, BuilderCanMove, ConnectorCanMove;
    if Enabled(s, act) {
      match act
      case Build(i) =>
        assert s.posters[i] in s.posters;
        BuilderStaysInOrder(s, s.posters[i]);
        OneStaysInOrder(s, Next(s, act), i, BuilderMoves(s, s.posters[i]));
      case Advance(i) =>
        assert s.posters[i] in s.posters;
        ConnectorStaysInOrder(s, s.posters[i]);
        ReadStaysInOrder(ConnectorMoves(s, s.posters[i]), s.read, Next(s, act).read);
        OneStaysInOrder(s, Next(s, act), i, ConnectorMoves(s, s.posters[i]));
      case Ask(i, _) => SamePlaces(s, Next(s, act), i);
      case WakeUp(i) => SamePlaces(s, Next(s, act), i);
      case Settle(i, _, _) => SamePlaces(s, Next(s, act), i);
      case _ =>
    }
  }

  lemma SamePlaces(s: State, t: State, i: nat)
    requires AllInOrder(s) && i < |s.posters| && |t.posters| == |s.posters| && t.read == s.read
    requires t.posters == s.posters[i := t.posters[i]]
    requires t.posters[i].queue == s.posters[i].queue && t.posters[i].builder == s.posters[i].builder
    ensures AllInOrder(t)
  {
    assert s.posters[i] in s.posters && InOrder(t.posters[i], t.read);
    OneStaysInOrder(s, t, i, t.posters[i]);
  }

  lemma {:induction false} QueuesAreInOrder(s: State, actions: seq<Action>)
    requires Initial(s)
    ensures AllInOrder(After(s, actions))
  {
    if actions != [] {
      hide Initial, AllInOrder, Next;
      QueuesAreInOrder(s, actions[..|actions| - 1]);
      StepStaysInOrder(After(s, actions[..|actions| - 1]), actions[|actions| - 1]);
    }
  }

  /** What a connection holds leaves it as posted or as failed, as its outcome says. */
  lemma OutcomeCounts(s: State, i: nat, c: nat, ok: bool)
    requires Enabled(s, Settle(i, c, ok))
    ensures var t, a := Next(s, Settle(i, c, ok)), s.posters[i].held[c].value;
            && t.posted == (if ok then s.posted + [a] else s.posted)
            && t.failed == (if ok then s.failed else s.failed + [a])
            && t.posters[i].held[c].None?
    ensures Next(s, Stop).stopped && forall on :: Next(s, SetPaused(on)).paused == on
  {
  }

  // ---- The flicker is real ----

  lemma Does(s: State, actions: seq<Action>, t: State, act: Action) returns (longer: seq<Action>, u: State)
    requires t == After(s, actions)
    ensures longer == actions + [act] && u == Next(t, act) == After(s, longer)
  {
    longer, u := actions + [act], Next(t, act);
    assert longer[..|actions|] == actions;
  }

  const AT_START: Poster := Poster([], false, Resting, Free, [None])

  function Half(builder: Builder, connector: Connector): Poster { Poster([], true, builder, connector, [None]) }

  /** With two builders past the last slice, a pause that ends at the wrong moment makes a
      connection take the end of the input for granted while its article is being built. */
  lemma FlickerMisleads() returns (actions: seq<Action>, t: State)
    ensures Initial(State([AT_START, AT_START], 0, 1, false, false, false, [], []))
    ensures t == After(State([AT_START, AT_START], 0, 1, false, false, false, [], []), actions)
    ensures ReturnsNull(t, 0) && t.posters[0].builder == Encoding(Some(0))
  {
    var s := State([AT_START, AT_START], 0, 1, false, false, false, [], []);
    var none := Half(Encoding(Option<Article>.None), Free);
    actions, t := BuilderReads(s, [], s, 0);
    assert t == State([Half(Encoding(Some(0)), Free), AT_START], 1, 1, false, false, false, [], []);
    actions, t := BuilderReads(s, actions, t, 1);
    assert t == State([Half(Encoding(Some(0)), Free), none], 1, 1, true, false, false, [], []);
    actions, t := Does(s, actions, t, Ask(0, 0));
    assert t == State([Half(Encoding(Some(0)), Entering(0)), none], 1, 1, true, false, false, [], []);
    actions, t := Does(s, actions, t, Advance(0));
    assert t == State([Half(Encoding(Some(0)), Testing(0)), none], 1, 1, true, false, false, [], []);
    actions, t := Does(s, actions, t, SetPaused(true));
    actions, t := Does(s, actions, t, Advance(0));
    assert t == State([Half(Encoding(Some(0)), Deciding(0)), none], 1, 1, true, true, false, [], []);
    actions, t := Does(s, actions, t, SetPaused(false));
  }

  lemma BuilderReads(s: State, before: seq<Action>, u: State, i: nat) returns (actions: seq<Action>, t: State)
    requires u == After(s, before) && i < |u.posters| && u.posters[i] == AT_START && DiskIsFree(u)
    ensures t == After(s, actions)
    ensures t == With(AfterRead(u), i, Half(Encoding(NextSlice(u)), Free))
  {
    hide After;
    var posters := u.posters;
    actions, t := Does(s, before, u, Build(i));
    assert t == u.(posters := posters[i := AT_START.(builder := Marking)]);
    actions, t := Does(s, actions, t, Build(i));
    assert t == u.(posters := posters[i := Half(WantsBuffer, Free)]);
    actions, t := Does(s, actions, t, Build(i));
    assert t == u.(posters := posters[i := Half(WantsDisk, Free)]);
    actions, t := Does(s, actions, t, Build(i));
    assert t == u.(posters := posters[i := Half(Reading, Free)]);
    actions, t := Does(s, actions, t, Build(i));
  }
}
