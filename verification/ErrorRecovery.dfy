/** A held connection whose backend may reject any message. */
module ErrorRecovery {
  import opened Options
  import opened Lru
  import opened Sequences
  import opened Server
  import opened Connection

  /** `shut`: an error was read and not everything under way is answered yet. */
  datatype Link = Link(conn: Conn, shut: bool)

  const START := Link(NEW, false)

  datatype Event =
    | SendParse(canon: Name, stmt: Stmt, id: nat)
    | SendUse(target: Target, canon: Name, stmt: Stmt, id: nat)          // with re-preparation
    | SendRaw(target: Target, name: Name, id: nat)                       // a name the client never parsed
    | SendPortalClose(id: nat)
    | SendQuery(discardAll: bool, id: nat)
    | SendSync(id: nat)
    | SendOther(id: nat)
    | Exec
    | Fail
    | Read

  predicate IsSend(e: Event) {
    !e.Exec? && !e.Fail? && !e.Read?
  }

  /** The client pipelines as it likes, any number of batches; but once an error has been passed
      to it, it sends nothing but a Sync until everything that was under way is answered. */
  predicate Enabled(l: Link, e: Event) {
    match e
    case Exec => l.conn.sent != [] && (l.conn.skipping || Accepts(l.conn.backend, l.conn.sent[0]))
    case Fail => l.conn.sent != [] && !l.conn.skipping
    case Read => l.conn.replies != []
    case SendSync(_) => true
    case _ => !l.shut
  }

  function Sent(c: Conn, max: nat, e: Event): Conn {
    match e
    case SendParse(canon, stmt, id) => Connection.SendParse(c, max, canon, stmt, Client(id)).0
    case SendUse(target, canon, stmt, id) =>
      Put(EnsurePrepared(c, max, canon, stmt), Use(target, canon, Some(stmt), id))
    case SendRaw(target, name, id) => Put(c, Use(target, name, None, id))
    case SendPortalClose(id) => Connection.SendPortalClose(c, id)
    case SendQuery(discardAll, id) => Connection.SendQuery(c, discardAll, id)
    case SendSync(id) => Put(c, Sync(id))
    case SendOther(id) => Put(c, Other(id))
    case _ => c
  }

  predicate Settled(c: Conn) {
    c.sent == [] && c.replies == [] && !c.skipping
  }

  function Next(l: Link, max: nat, e: Event): Link
    requires Enabled(l, e)
  {
    match e
    case Exec => l.(conn := Connection.Exec(l.conn))
    case Fail => l.(conn := Connection.Fail(l.conn))
    case Read =>
      var c := Connection.Read(l.conn).0;
      Link(c, (l.shut || l.conn.replies[0].Error?) && !Settled(c))
    case _ => l.(conn := Sent(l.conn, max, e))
  }

  predicate Runs(l: Link, max: nat, events: seq<Event>)
    decreases |events|
  {
    events == [] || (Enabled(l, events[0]) && Runs(Next(l, max, events[0]), max, events[1..]))
  }

  function After(l: Link, max: nat, events: seq<Event>): Link
    requires Runs(l, max, events)
    decreases |events|
  {
    if events == [] then l else After(Next(l, max, events[0]), max, events[1..])
  }

  // ---------------------------------------------------------------------
  // The invariant
  // ---------------------------------------------------------------------

  /** The replies in front of the first error. */
  function Ahead(replies: seq<Answer>): seq<Answer> {
    if replies == [] || replies[0].Error? then [] else [replies[0]] + Ahead(replies[1..])
  }

  lemma {:induction false} AheadIsPrefix(replies: seq<Answer>)
    ensures |Ahead(replies)| <= |replies| && Ahead(replies) == replies[..|Ahead(replies)|]
    ensures Error !in Ahead(replies)
    ensures Error !in replies ==> Ahead(replies) == replies
    ensures Error in replies ==> |Ahead(replies)| < |replies| && replies[|Ahead(replies)|] == Error
  {
    if replies != [] && !replies[0].Error? {
      AheadIsPrefix(replies[1..]);
      assert replies == [replies[0]] + replies[1..];
    }
  }

  lemma {:induction false} AheadOfMore(replies: seq<Answer>, more: seq<Answer>)
    requires Error in replies || (more != [] && more[0].Error?)
    ensures Ahead(replies + more) == Ahead(replies)
  {
    if replies == [] {
      assert replies + more == more;
    } else {
      assert (replies + more)[1..] == replies[1..] + more;
      if !replies[0].Error? {
        AheadOfMore(replies[1..], more);
      }
    }
  }

  /** The message takes the statement from the backend. */
  predicate Removes(m: Msg, n: Name) {
    m == CloseStatement(n) || (m.Query? && m.discardAll)
  }

  /** Nothing in flight takes the statement from the backend. */
  ghost predicate Stays(sent: seq<Msg>, n: Name) {
    forall m :: m in sent ==> !Removes(m, n)
  }

  /** Prepared, whatever the backend does with what is in flight. */
  ghost predicate Kept(c: Conn, n: Name) {
    n in c.backend && Stays(c.sent, n)
  }

  /** The FIFO starts with the replies that will be read before any error. */
  ghost predicate FifoAhead(c: Conn) {
    var due := ParsesDue(Ahead(c.replies));
    |c.tracker.parses| >= |due| && c.tracker.parses[..|due|] == due
  }

  /** Names of the Parses that no reply in front of the first error confirms. */
  ghost function Unconfirmed(c: Conn): set<Name>
    requires FifoAhead(c)
  {
    PendingNames(c.tracker.parses[|ParsesDue(Ahead(c.replies))|..])
  }

  /** No error under way: the FIFOs match the replies to come, and what is cached will be
      prepared. */
  ghost predicate OpenInv(c: Conn) {
    !c.skipping && Aligned(c) && Elems(c.tracker.order) <= Replay(c.backend, c.sent).Keys
  }

  /** An error waits to be read: what is cached is safe or unconfirmed. */
  ghost predicate BrokenInv(c: Conn) {
    FifoAhead(c) && forall n :: n in c.tracker.order ==> n in Unconfirmed(c) || Kept(c, n)
  }

  /** An error was read: what is cached is safe. */
  ghost predicate ShutInv(c: Conn) {
    c.tracker.parses == [] && c.tracker.closes == [] && forall n :: n in c.tracker.order ==> Kept(c, n)
  }

  ghost predicate Inv(l: Link, max: nat) {
    && WithinCap(l.conn.tracker.order, max)
    && if l.shut then ShutInv(l.conn)
       else if Error in l.conn.replies then BrokenInv(l.conn)
       else OpenInv(l.conn)
  }

  // ---------------------------------------------------------------------
  // Sending
  // ---------------------------------------------------------------------

  /** What a send does, whatever state the backend is in: FIFO entries and messages go behind
      the old ones; a newly cached name has one of the new entries and was not cached; a name
      leaves the cache exactly when a new message takes it from the backend. */
  ghost predicate Extends(c: Conn, c': Conn, max: nat) {
    && c'.backend == c.backend && c'.skipping == c.skipping && c'.replies == c.replies
    && WithinCap(c'.tracker.order, max)
    && |c'.tracker.parses| >= |c.tracker.parses|
    && c'.tracker.parses[..|c.tracker.parses|] == c.tracker.parses
    && |c'.sent| >= |c.sent|
    && c'.sent[..|c.sent|] == c.sent
    && (forall n :: n in c'.tracker.order ==>
          || n in PendingNames(c'.tracker.parses[|c.tracker.parses|..])
          || (n in c.tracker.order && Stays(c'.sent[|c.sent|..], n)))
    && (forall n :: n in c.tracker.order ==> n in c'.tracker.order || !Stays(c'.sent[|c.sent|..], n))
    && (forall n :: n in PendingNames(c'.tracker.parses[|c.tracker.parses|..]) ==> n !in c.tracker.order)
  }

  lemma TakenAway(ms: seq<Msg>, m: Msg, n: Name)
    requires m in ms && Removes(m, n)
    ensures !Stays(ms, n)
  {
  }

  /** The messages for a newly prepared name: the eviction's Close, if any, in front. */
  function Preparing(eviction: Option<Name>, m: Msg): seq<Msg> {
    match eviction case None => [m] case Some(e) => [CloseStatement(e), m]
  }

  lemma RecordSends(c: Conn, t: Tracker, eviction: Option<Name>, m: Msg)
    ensures Put(PutEviction(c.(tracker := t), eviction), m) == c.(tracker := t, sent := c.sent + Preparing(eviction, m))
    ensures (c.sent + Preparing(eviction, m))[|c.sent|..] == Preparing(eviction, m)
  {
  }

  lemma RecordMoves(t: Tracker, max: nat, canon: Name, reply: Reply, m: Msg, n: Name)
    requires WithinCap(t.order, max) && canon !in t.order && m.Parse? && n != canon
    ensures var (t', eviction) := t.RecordPrepare(max, canon, reply);
            n in t'.order <==> n in t.order && Stays(Preparing(eviction, m), n)
  {
    var (t', eviction) := t.RecordPrepare(max, canon, reply);
    NotesGrowTogether(t, max, canon, reply);
    assert n in Elems(t'.order) <==> n in Elems(t.order) && eviction != Some(n);
    if eviction == Some(n) {
      TakenAway(Preparing(eviction, m), CloseStatement(n), n);
    }
  }

  lemma RecordExtends(c: Conn, max: nat, canon: Name, reply: Reply, m: Msg)
    requires WithinCap(c.tracker.order, max) && canon !in c.tracker.order && m.Parse?
    ensures var (t, eviction) := c.tracker.RecordPrepare(max, canon, reply);
            Extends(c, Put(PutEviction(c.(tracker := t), eviction), m), max)
  {
    var (t, eviction) := c.tracker.RecordPrepare(max, canon, reply);
    NotesGrowTogether(c.tracker, max, canon, reply);
    RecordSends(c, t, eviction, m);
    assert t.parses[|c.tracker.parses|..] == [ParseReply(reply, canon)];
    assert [ParseReply(reply, canon)][0].canon == canon;
    forall n | n != canon
      ensures n in t.order <==> n in c.tracker.order && Stays(Preparing(eviction, m), n)
    {
      RecordMoves(c.tracker, max, canon, reply, m, n);
    }
  }

  lemma TouchExtends(c: Conn, max: nat, canon: Name)
    requires WithinCap(c.tracker.order, max) && canon in c.tracker.order
    ensures Extends(c, c.(tracker := c.tracker.(order := Used(c.tracker.order, max, canon).0)), max)
  {
    UsedKeepsCap(c.tracker.order, max, canon);
    assert Elems(Used(c.tracker.order, max, canon).0) == Elems(c.tracker.order);
  }

  lemma ThenPutExtends(c: Conn, c': Conn, max: nat, m: Msg)
    requires Extends(c, c', max) && m.Use?
    ensures Extends(c, Put(c', m), max)
  {
    assert Put(c', m).sent[|c.sent|..] == c'.sent[|c.sent|..] + [m];
  }

  lemma PlainExtends(c: Conn, c': Conn, max: nat, m: Msg)
    requires WithinCap(c.tracker.order, max)
    requires c' == Put(c.(tracker := c'.tracker), m) && c'.tracker.parses == c.tracker.parses
    requires if c'.tracker.order == c.tracker.order then c.tracker.order == [] || forall n :: !Removes(m, n)
             else c'.tracker.order == [] && forall n :: Removes(m, n)
    ensures Extends(c, c', max)
  {
    assert c'.sent[|c.sent|..] == [m];
    if c'.tracker.order != c.tracker.order {
      forall n
        ensures !Stays([m], n)
      {
        TakenAway([m], m, n);
      }
    }
  }

  lemma SendExtends(c: Conn, max: nat, e: Event)
    requires WithinCap(c.tracker.order, max) && IsSend(e)
    ensures Extends(c, Sent(c, max, e), max)
  {
    match e
    case SendParse(canon, stmt, id) =>
      if canon in c.tracker.order {
        TouchExtends(c, max, canon);
      } else {
        RecordExtends(c, max, canon, Forward, Parse(canon, stmt, Client(id)));
      }
    case SendUse(target, canon, stmt, id) =>
      if canon in c.tracker.order {
        TouchExtends(c, max, canon);
      } else {
        RecordExtends(c, max, canon, Suppress, Parse(canon, stmt, Injected));
      }
      ThenPutExtends(c, EnsurePrepared(c, max, canon, stmt), max, Use(target, canon, Some(stmt), id));
    case SendRaw(target, name, id) => PlainExtends(c, Sent(c, max, e), max, Use(target, name, None, id));
    case SendPortalClose(id) => PlainExtends(c, Sent(c, max, e), max, ClosePortal(id));
    case SendQuery(discardAll, id) => PlainExtends(c, Sent(c, max, e), max, Query(discardAll, id));
    case SendSync(id) => PlainExtends(c, Sent(c, max, e), max, Sync(id));
    case SendOther(id) => PlainExtends(c, Sent(c, max, e), max, Other(id));
  }

  lemma ReplayAppend(p: Statements, ms: seq<Msg>, m: Msg)
    ensures Replay(p, ms + [m]) == Apply(Replay(p, ms), m)
    decreases |ms|
  {
    if ms == [] {
      assert ms + [m] == [m] && [m][1..] == [];
    } else {
      ReplayAppend(Apply(p, ms[0]), ms[1..], m);
      assert (ms + [m])[1..] == ms[1..] + [m];
    }
  }

  ghost predicate Covered(c: Conn) {
    Elems(c.tracker.order) <= Replay(c.backend, c.sent).Keys
  }

  lemma RecordKeepsCovered(c: Conn, max: nat, canon: Name, stmt: Stmt, reply: Reply, origin: Origin)
    requires Covered(c) && WithinCap(c.tracker.order, max) && canon !in c.tracker.order
    ensures var (t, eviction) := c.tracker.RecordPrepare(max, canon, reply);
            Covered(Put(PutEviction(c.(tracker := t), eviction), Parse(canon, stmt, origin)))
  {
    var (t, eviction) := c.tracker.RecordPrepare(max, canon, reply);
    NotesGrowTogether(c.tracker, max, canon, reply);
    var c1 := PutEviction(c.(tracker := t), eviction);
    if eviction.Some? {
      ReplayAppend(c.backend, c.sent, CloseStatement(eviction.value));
    }
    ReplayAppend(c.backend, c1.sent, Parse(canon, stmt, origin));
  }

  lemma TouchKeepsCovered(c: Conn, max: nat, canon: Name)
    requires Covered(c) && WithinCap(c.tracker.order, max) && canon in c.tracker.order
    ensures Covered(c.(tracker := c.tracker.(order := Used(c.tracker.order, max, canon).0)))
  {
    UsedKeepsCap(c.tracker.order, max, canon);
    assert Elems(Used(c.tracker.order, max, canon).0) == Elems(c.tracker.order);
  }

  lemma SendKeepsCovered(c: Conn, max: nat, e: Event)
    requires Covered(c) && WithinCap(c.tracker.order, max) && IsSend(e)
    ensures Covered(Sent(c, max, e))
  {
    match e
    case SendParse(canon, stmt, id) =>
      if canon in c.tracker.order {
        TouchKeepsCovered(c, max, canon);
      } else {
        RecordKeepsCovered(c, max, canon, stmt, Forward, Client(id));
      }
    case SendUse(target, canon, stmt, id) =>
      if canon in c.tracker.order {
        TouchKeepsCovered(c, max, canon);
      } else {
        RecordKeepsCovered(c, max, canon, stmt, Suppress, Injected);
      }
      var c' := EnsurePrepared(c, max, canon, stmt);
      ReplayAppend(c'.backend, c'.sent, Use(target, canon, Some(stmt), id));
    case SendRaw(target, name, id) => ReplayAppend(c.backend, c.sent, Use(target, name, None, id));
    case SendPortalClose(id) => ReplayAppend(c.backend, c.sent, ClosePortal(id));
    case SendQuery(b, id) => ReplayAppend(c.backend, c.sent, Query(b, id));
    case SendSync(id) => ReplayAppend(c.backend, c.sent, Sync(id));
    case SendOther(id) => ReplayAppend(c.backend, c.sent, Other(id));
  }

  lemma UseKeepsAligned(c: Conn, max: nat, target: Target, canon: Name, stmt: Stmt, id: nat)
    requires Aligned(c)
    ensures var c' := Put(EnsurePrepared(c, max, canon, stmt), Use(target, canon, Some(stmt), id));
            Aligned(c') && (Simulates(c, max) ==> Simulates(c', max))
  {
    EnsurePreparedKeeps(c, max, canon, stmt);
    PutPlainKeeps(EnsurePrepared(c, max, canon, stmt), max, Use(target, canon, Some(stmt), id));
  }

  lemma PlainKeepsAligned(c: Conn, max: nat, m: Msg)
    requires Aligned(c) && ((m.Use? && m.wanted.None?) || m.Sync? || m.Other?)
    ensures Aligned(Put(c, m)) && (Simulates(c, max) ==> Simulates(Put(c, m), max))
  {
    PutPlainKeeps(c, max, m);
  }

  lemma SendKeepsAligned(c: Conn, max: nat, e: Event)
    requires Aligned(c) && IsSend(e)
    ensures Aligned(Sent(c, max, e))
    ensures Simulates(c, max) ==> Simulates(Sent(c, max, e), max)
  {
    match e
    case SendParse(canon, stmt, id) => SendParseKeeps(c, max, canon, stmt, id);
    case SendUse(target, canon, stmt, id) => UseKeepsAligned(c, max, target, canon, stmt, id);
    case SendPortalClose(id) => SendPortalCloseKeeps(c, max, id);
    case SendQuery(b, id) => SendQueryKeeps(c, max, b, id);
    case SendRaw(target, name, id) => PlainKeepsAligned(c, max, Use(target, name, None, id));
    case SendSync(id) => PlainKeepsAligned(c, max, Sync(id));
    case SendOther(id) => PlainKeepsAligned(c, max, Other(id));
  }

  lemma PendingInEither(a: seq<ParseReply>, b: seq<ParseReply>, n: Name)
    ensures n in PendingNames(a + b) <==> n in PendingNames(a) || n in PendingNames(b)
  {
    if n in PendingNames(b) {
      var i :| 0 <= i < |b| && b[i].canon == n;
      assert (a + b)[|a| + i].canon == n;
    }
    if n in PendingNames(a) {
      var i :| 0 <= i < |a| && a[i].canon == n;
      assert (a + b)[i].canon == n;
    }
  }

  /** New FIFO entries are unconfirmed as long as an error is ahead of them. */
  lemma ExtendsUnconfirmed(c: Conn, c': Conn, max: nat)
    requires FifoAhead(c) && Extends(c, c', max)
    ensures FifoAhead(c')
    ensures Unconfirmed(c') == Unconfirmed(c) + PendingNames(c'.tracker.parses[|c.tracker.parses|..])
  {
    var k := |ParsesDue(Ahead(c.replies))|;
    var before, after := c.tracker.parses, c'.tracker.parses;
    assert after[..k] == before[..k];
    assert after[k..] == before[k..] + after[|before|..];
    forall n
      ensures n in PendingNames(after[k..]) <==> n in PendingNames(before[k..]) || n in PendingNames(after[|before|..])
    {
      PendingInEither(before[k..], after[|before|..], n);
    }
  }

  lemma KeptUnderSend(c: Conn, c': Conn, max: nat, n: Name)
    requires Extends(c, c', max) && Kept(c, n) && Stays(c'.sent[|c.sent|..], n)
    ensures Kept(c', n)
  {
    assert c'.sent == c.sent + c'.sent[|c.sent|..];
  }

  lemma SendKeepsBroken(c: Conn, c': Conn, max: nat)
    requires BrokenInv(c) && Extends(c, c', max)
    ensures BrokenInv(c')
  {
    ExtendsUnconfirmed(c, c', max);
    forall n | n in c'.tracker.order
      ensures n in Unconfirmed(c') || Kept(c', n)
    {
      if n !in Unconfirmed(c') {
        KeptUnderSend(c, c', max, n);
      }
    }
  }

  lemma SyncKeepsShut(c: Conn, id: nat)
    requires ShutInv(c)
    ensures ShutInv(Put(c, Sync(id)))
  {
  }

  lemma SendKeepsInv(l: Link, max: nat, e: Event)
    requires Inv(l, max) && Enabled(l, e) && IsSend(e)
    ensures Inv(Next(l, max, e), max)
  {
    SendExtends(l.conn, max, e);
    if l.shut {
      SyncKeepsShut(l.conn, e.id);
    } else if Error in l.conn.replies {
      SendKeepsBroken(l.conn, Sent(l.conn, max, e), max);
    } else {
      SendKeepsAligned(l.conn, max, e);
      SendKeepsCovered(l.conn, max, e);
    }
  }

  // ---------------------------------------------------------------------
  // The backend
  // ---------------------------------------------------------------------

  lemma ExecKeepsKept(c: Conn, n: Name)
    requires c.sent != [] && Kept(c, n)
    ensures Kept(Connection.Exec(c), n)
  {
    assert c.sent[0] in c.sent;
    assert forall m :: m in c.sent[1..] ==> m in c.sent;
  }

  /** What the backend does behind an error adds replies behind it. */
  lemma ExecAddsReply(c: Conn)
    requires c.sent != []
    ensures var c' := Connection.Exec(c);
            c'.tracker == c.tracker && (c'.replies == c.replies || c'.replies == c.replies + [AnswerTo(c.sent[0])])
  {
  }

  lemma ExecKeepsInv(l: Link, max: nat)
    requires Inv(l, max) && Enabled(l, Exec)
    ensures Inv(Next(l, max, Exec), max)
  {
    var c, c' := l.conn, Connection.Exec(l.conn);
    ExecAddsReply(c);
    forall n | Kept(c, n)
      ensures Kept(c', n)
    {
      ExecKeepsKept(c, n);
    }
    if !l.shut && Error in c.replies {
      AheadOfMore(c.replies, [AnswerTo(c.sent[0])]);
      assert c'.replies == c.replies || Error in c'.replies;
    } else if !l.shut {
      ExecKeeps(c, max);
    }
  }

  /** What the replay leaves was there and stays there, or is parsed on the way. */
  lemma {:induction false} ReplayOrigin(p: Statements, ms: seq<Msg>, n: Name)
    requires n in Replay(p, ms)
    ensures (n in p && Stays(ms, n)) || n in PendingNames(ParsesDue(Answers(ms)))
    decreases |ms|
  {
    if ms != [] {
      ReplayOrigin(Apply(p, ms[0]), ms[1..], n);
      AnswersFirst(ms);
      var first, rest := ParseDue(AnswerTo(ms[0])), ParsesDue(Answers(ms[1..]));
      PendingInEither(first, rest, n);
      if ms[0].Parse? && ms[0].name == n {
        assert first[0].canon == n;
      }
      assert ms == [ms[0]] + ms[1..];
    }
  }

  lemma AnswersFirst(ms: seq<Msg>)
    requires ms != []
    ensures ParsesDue(Answers(ms)) == ParseDue(AnswerTo(ms[0])) + ParsesDue(Answers(ms[1..]))
  {
    assert Answers(ms)[1..] == Answers(ms[1..]);
  }

  lemma {:induction false} ParsesDueConcat(a: seq<Answer>, b: seq<Answer>)
    ensures ParsesDue(a + b) == ParsesDue(a) + ParsesDue(b)
  {
    if a == [] {
      assert a + b == b;
    } else {
      ParsesDueConcat(a[1..], b);
      assert (a + b)[0] == a[0] && (a + b)[1..] == a[1..] + b;
      Assoc(ParseDue(a[0]), ParsesDue(a[1..]), ParsesDue(b));
    }
  }

  lemma FailAddsError(c: Conn)
    requires c.sent != []
    ensures var c' := Connection.Fail(c);
            && c'.tracker == c.tracker && c'.backend == c.backend && c'.sent == c.sent[1..]
            && |c'.replies| > |c.replies| && c'.replies[..|c.replies|] == c.replies
            && c'.replies[|c.replies|] == Error && Error in c'.replies
            && Ahead(c'.replies) == Ahead(c.replies)
  {
    var c' := Connection.Fail(c);
    var more := c'.replies[|c.replies|..];
    assert c'.replies == c.replies + more;
    AheadOfMore(c.replies, more);
  }

  /** The first error leaves what is in flight unconfirmed. */
  lemma FailBreaks(c: Conn)
    requires OpenInv(c) && Error !in c.replies && c.sent != []
    ensures FifoAhead(Connection.Fail(c))
    ensures Unconfirmed(Connection.Fail(c)) == PendingNames(ParsesDue(Answers(c.sent)))
  {
    FailAddsError(c);
    AheadIsPrefix(c.replies);
    ParsesDueConcat(c.replies, Answers(c.sent));
    var k := |ParsesDue(c.replies)|;
    assert c.tracker.parses[k..] == ParsesDue(Answers(c.sent));
  }

  lemma FailKeepsKept(c: Conn, n: Name)
    requires c.sent != [] && Kept(c, n)
    ensures Kept(Connection.Fail(c), n)
  {
    assert forall m :: m in c.sent[1..] ==> m in c.sent;
  }

  lemma FailKeepsInv(l: Link, max: nat)
    requires Inv(l, max) && Enabled(l, Fail)
    ensures Inv(Next(l, max, Fail), max)
  {
    var c, c' := l.conn, Connection.Fail(l.conn);
    FailAddsError(c);
    if !l.shut && Error !in c.replies {
      FailBreaks(c);
      forall n | n in c.tracker.order && n !in Unconfirmed(c')
        ensures Kept(c', n)
      {
        assert n in Elems(c.tracker.order);
        ReplayOrigin(c.backend, c.sent, n);
        FailKeepsKept(c, n);
      }
    } else {
      forall n | Kept(c, n)
        ensures Kept(c', n)
      {
        FailKeepsKept(c, n);
      }
    }
  }

  // ---------------------------------------------------------------------
  // Reading
  // ---------------------------------------------------------------------

  lemma SplitPops<T>(fifo: seq<T>, first: T, rest: seq<T>)
    requires |rest| < |fifo| && fifo[..|rest| + 1] == [first] + rest
    ensures fifo[0] == first && fifo[1..][..|rest|] == rest && fifo[1..][|rest|..] == fifo[|rest| + 1..]
  {
    assert fifo[1..][..|rest|] == fifo[..|rest| + 1][1..];
  }

  lemma AheadOfFront(replies: seq<Answer>)
    requires replies != [] && !replies[0].Error?
    ensures ParsesDue(Ahead(replies)) == ParseDue(replies[0]) + ParsesDue(Ahead(replies[1..]))
  {
    assert Ahead(replies)[1..] == Ahead(replies[1..]);
  }

  /** A reply in front of the error takes its own entry from the FIFO. */
  lemma {:induction false} ReadPopsAhead(c: Conn)
    requires FifoAhead(c) && c.replies != [] && !c.replies[0].Error?
    ensures var c' := Connection.Read(c).0;
            && FifoAhead(c') && Unconfirmed(c') == Unconfirmed(c)
            && c'.tracker.order == c.tracker.order && c' == c.(tracker := c'.tracker, replies := c.replies[1..])
  {
    var a := c.replies[0];
    AheadOfFront(c.replies);
    if a.ParseComplete? {
      SplitPops(c.tracker.parses, ParseDue(a)[0], ParsesDue(Ahead(c.replies[1..])));
    }
  }

  /** Reading the error: the rollback leaves only what the backend keeps prepared. */
  lemma RollbackLeavesKept(c: Conn, max: nat)
    requires WithinCap(c.tracker.order, max) && BrokenInv(c) && c.replies != [] && c.replies[0].Error?
    ensures WithinCap(Connection.Read(c).0.tracker.order, max)
    ensures ShutInv(Connection.Read(c).0)
    ensures Elems(Connection.Read(c).0.tracker.order) == Elems(c.tracker.order) - Unconfirmed(c)
  {
    var c' := Connection.Read(c).0;
    RollBackForgetsUnconfirmed(c.tracker.order, max, c.tracker.parses);
    assert c.tracker.parses[0..] == c.tracker.parses;
    forall n | n in c'.tracker.order
      ensures Kept(c', n)
    {
      assert n in Elems(c'.tracker.order);
      assert n in Elems(c.tracker.order);
    }
  }

  /** With empty FIFOs a reply changes nothing but the reply queue. */
  lemma ReadWhileShut(c: Conn)
    requires c.replies != [] && c.tracker.parses == [] && c.tracker.closes == []
    ensures Connection.Read(c).0 == c.(replies := c.replies[1..])
  {
  }

  lemma SettledIsOpen(c: Conn)
    requires ShutInv(c) && Settled(c)
    ensures OpenInv(c) && Error !in c.replies
  {
    assert Due(c) == [];
  }

  lemma ReadKeepsOpen(c: Conn, max: nat)
    requires OpenInv(c) && c.replies != [] && Error !in c.replies
    ensures OpenInv(Connection.Read(c).0) && Error !in Connection.Read(c).0.replies
    ensures Connection.Read(c).0.tracker.order == c.tracker.order
  {
    assert c.replies[0] in c.replies;
    ReadFilters(c, max);
    assert forall a :: a in c.replies[1..] ==> a in c.replies;
  }

  lemma ReadKeepsBroken(c: Conn)
    requires BrokenInv(c) && Error in c.replies && !c.replies[0].Error?
    ensures BrokenInv(Connection.Read(c).0) && Error in Connection.Read(c).0.replies
    ensures Connection.Read(c).0.tracker.order == c.tracker.order
  {
    ReadPopsAhead(c);
    assert c.replies == [c.replies[0]] + c.replies[1..];
    forall n | Kept(c, n)
      ensures Kept(Connection.Read(c).0, n)
    {
    }
  }

  lemma ReadKeepsInv(l: Link, max: nat)
    requires Inv(l, max) && Enabled(l, Read)
    ensures Inv(Next(l, max, Read), max)
  {
    var c, c' := l.conn, Connection.Read(l.conn).0;
    if l.shut {
      ReadWhileShut(c);
      assert forall n :: Kept(c, n) ==> Kept(c', n);
    } else if c.replies[0].Error? {
      assert c.replies[0] in c.replies;
      RollbackLeavesKept(c, max);
    } else if Error in c.replies {
      ReadKeepsBroken(c);
    } else {
      ReadKeepsOpen(c, max);
    }
    if ShutInv(c') && Settled(c') {
      SettledIsOpen(c');
    }
  }

  // ---------------------------------------------------------------------
  // Every run is sound
  // ---------------------------------------------------------------------

  lemma StepKeepsInv(l: Link, max: nat, e: Event)
    requires Inv(l, max) && Enabled(l, e)
    ensures Inv(Next(l, max, e), max)
  {
    match e
    case Exec => ExecKeepsInv(l, max);
    case Fail => FailKeepsInv(l, max);
    case Read => ReadKeepsInv(l, max);
    case _ => SendKeepsInv(l, max, e);
  }

  lemma {:induction false} RunsKeepInv(l: Link, max: nat, events: seq<Event>)
    requires Inv(l, max) && Runs(l, max, events)
    ensures Inv(After(l, max, events), max)
    decreases |events|
  {
    if events != [] {
      StepKeepsInv(l, max, events[0]);
      RunsKeepInv(Next(l, max, events[0]), max, events[1..]);
    }
  }

  lemma StartInv(max: nat)
    ensures Inv(START, max)
  {
    assert Due(NEW) == [];
  }

  /** Nothing is under way, or an error was read and not all of it is answered. */
  predicate Quiet(l: Link) {
    l.shut || (l.conn.sent == [] && Error !in l.conn.replies)
  }

  /** Whatever messages the backend rejects, of however many pipelined batches: right after
      the rollback, and until everything under way is answered, both FIFOs are empty and every
      cached name is prepared on the backend, whatever it still does with what is in flight;
      and so it is whenever nothing is under way. */
  lemma RollbackIsSound(max: nat, events: seq<Event>)
    requires Runs(START, max, events)
    ensures var l := After(START, max, events);
            && (Quiet(l) ==> Elems(l.conn.tracker.order) <= l.conn.backend.Keys)
            && (l.shut ==>
                  && l.conn.tracker.parses == [] && l.conn.tracker.closes == []
                  && forall n :: n in l.conn.tracker.order ==> Stays(l.conn.sent, n))
  {
    StartInv(max);
    RunsKeepInv(START, max, events);
  }

  // ---------------------------------------------------------------------
  // What an error costs, exactly
  // ---------------------------------------------------------------------

  /** No error was passed to the client that is not settled, and none waits. */
  predicate Open(l: Link) {
    !l.shut && Error !in l.conn.replies
  }

  /** Statements of the backend that the messages take away. */
  ghost function Removed(p: Statements, ms: seq<Msg>): set<Name> {
    set n | n in p && !Stays(ms, n)
  }

  /** The statements on the backend that the cache no longer counts on. An error orphans what
      the messages behind it were to take away, those in flight and those sent until it is
      read, because the cache gave these names up when they were sent. A Parse that the backend
      takes while the error is under way makes an orphan too, since the rollback forgets it.
      Any message that removes a statement after all ends this. */
  ghost function Orphans(l: Link, max: nat, orphans: set<Name>, e: Event): set<Name>
    requires Enabled(l, e)
  {
    var c := l.conn;
    match e
    case Fail => orphans + Removed(c.backend, c.sent)
    case Exec =>
      var after := Connection.Exec(c).backend.Keys;
      (if Open(l) then orphans else orphans + (after - c.backend.Keys)) * after
    case Read => orphans
    case _ => if Open(l) then orphans else orphans + Removed(c.backend, Sent(c, max, e).sent[|c.sent|..])
  }

  ghost function OrphansAfter(l: Link, max: nat, orphans: set<Name>, events: seq<Event>): set<Name>
    requires Runs(l, max, events)
    decreases |events|
  {
    if events == [] then orphans
    else OrphansAfter(Next(l, max, events[0]), max, Orphans(l, max, orphans, events[0]), events[1..])
  }

  /** The connection as the cache sees it. */
  function Believed(c: Conn, orphans: set<Name>): Conn {
    c.(backend := c.backend - orphans)
  }

  ghost predicate Tight(l: Link, max: nat, orphans: set<Name>) {
    var c := l.conn;
    && orphans <= c.backend.Keys
    && if l.shut then Elems(c.tracker.order) == c.backend.Keys - orphans
       else if Error in c.replies then FifoAhead(c) && Elems(c.tracker.order) - Unconfirmed(c) == c.backend.Keys - orphans
       else Simulates(Believed(c, orphans), max)
  }

  /** What survives when nothing of `ms` is executed and its Parses are forgotten. */
  lemma {:induction false} KeptWhenDropped(p: Statements, ms: seq<Msg>, max: nat)
    requires WellSent(p, ms, max)
    ensures Replay(p, ms).Keys - PendingNames(ParsesDue(Answers(ms))) == p.Keys - Removed(p, ms)
    decreases |ms|
  {
    if ms != [] {
      KeptWhenDropped(Apply(p, ms[0]), ms[1..], max);
      AnswersFirst(ms);
      forall n
        ensures n in Replay(p, ms).Keys - PendingNames(ParsesDue(Answers(ms))) <==> n in p.Keys - Removed(p, ms)
      {
        DroppedFirst(p, ms, n);
      }
    }
  }

  lemma DroppedFirst(p: Statements, ms: seq<Msg>, n: Name)
    requires ms != [] && Sound(p, ms[0])
    requires var q := Apply(p, ms[0]);
             Replay(q, ms[1..]).Keys - PendingNames(ParsesDue(Answers(ms[1..]))) == q.Keys - Removed(q, ms[1..])
    requires ParsesDue(Answers(ms)) == ParseDue(AnswerTo(ms[0])) + ParsesDue(Answers(ms[1..]))
    ensures n in Replay(p, ms).Keys - PendingNames(ParsesDue(Answers(ms))) <==> n in p.Keys - Removed(p, ms)
  {
    var q, first, rest := Apply(p, ms[0]), ParseDue(AnswerTo(ms[0])), ParsesDue(Answers(ms[1..]));
    PendingInEither(first, rest, n);
    assert n in Replay(q, ms[1..]).Keys - PendingNames(rest) <==> n in q.Keys - Removed(q, ms[1..]);
    assert ms == [ms[0]] + ms[1..];
    assert Stays(ms, n) <==> !Removes(ms[0], n) && Stays(ms[1..], n);
    assert ms[0].Parse? ==> first[0].canon == ms[0].name;
  }

  /** One error: right after its rollback the cache equals the backend's set exactly when no
      message in flight was to take a statement away. */
  lemma RollbackIsExactIff(c: Conn, max: nat)
    requires Simulates(c, max)
    ensures Elems(c.tracker.order) - PendingNames(ParsesDue(Answers(c.sent))) == c.backend.Keys
            <==> (forall m, n :: m in c.sent && n in c.backend ==> !Removes(m, n))
  {
    KeptWhenDropped(c.backend, c.sent, max);
    assert c.backend.Keys - Removed(c.backend, c.sent) == c.backend.Keys <==> Removed(c.backend, c.sent) == {};
    if Removed(c.backend, c.sent) == {} {
      forall m, n | m in c.sent && n in c.backend
        ensures !Removes(m, n)
      {
        assert n !in Removed(c.backend, c.sent);
      }
    }
  }

  lemma BelievedSends(c: Conn, max: nat, orphans: set<Name>, e: Event)
    requires IsSend(e)
    ensures Believed(Sent(c, max, e), orphans) == Sent(Believed(c, orphans), max, e)
  {
  }

  lemma BelievedAligned(c: Conn, orphans: set<Name>)
    requires Aligned(c)
    ensures Aligned(Believed(c, orphans))
  {
    assert Due(Believed(c, orphans)) == Due(c);
  }

  lemma SendKeepsTightBroken(c: Conn, c': Conn, max: nat, orphans: set<Name>)
    requires FifoAhead(c) && Extends(c, c', max)
    requires Elems(c.tracker.order) - Unconfirmed(c) == c.backend.Keys - orphans
    ensures FifoAhead(c')
    ensures Elems(c'.tracker.order) - Unconfirmed(c')
         == c'.backend.Keys - (orphans + Removed(c.backend, c'.sent[|c.sent|..]))
  {
    ExtendsUnconfirmed(c, c', max);
    forall n
      ensures n in Elems(c'.tracker.order) - Unconfirmed(c')
         <==> n in c'.backend.Keys - (orphans + Removed(c.backend, c'.sent[|c.sent|..]))
    {
      assert n in Elems(c.tracker.order) - Unconfirmed(c) <==> n in c.backend.Keys - orphans;
    }
  }

  lemma SendKeepsPeer(c: Conn, max: nat, e: Event)
    requires IsSend(e)
    ensures Sent(c, max, e).backend == c.backend && Sent(c, max, e).replies == c.replies
  {
  }

  lemma SendSimulates(c: Conn, max: nat, orphans: set<Name>, e: Event)
    requires Aligned(c) && Simulates(Believed(c, orphans), max) && IsSend(e)
    ensures Simulates(Believed(Sent(c, max, e), orphans), max)
  {
    BelievedAligned(c, orphans);
    SendKeepsAligned(Believed(c, orphans), max, e);
    BelievedSends(c, max, orphans, e);
  }

  lemma SendKeepsTightOpen(l: Link, max: nat, orphans: set<Name>, e: Event)
    requires Inv(l, max) && Tight(l, max, orphans) && Enabled(l, e) && IsSend(e) && Open(l)
    ensures Tight(Next(l, max, e), max, Orphans(l, max, orphans, e))
  {
    SendKeepsPeer(l.conn, max, e);
    SendSimulates(l.conn, max, orphans, e);
  }

  lemma SendKeepsTightShut(l: Link, max: nat, orphans: set<Name>, e: Event)
    requires Tight(l, max, orphans) && Enabled(l, e) && IsSend(e) && l.shut
    ensures Tight(Next(l, max, e), max, Orphans(l, max, orphans, e))
  {
    var c := l.conn;
    assert Sent(c, max, e).sent[|c.sent|..] == [Sync(e.id)];
    assert Removed(c.backend, [Sync(e.id)]) == {};
  }

  lemma SendKeepsTight(l: Link, max: nat, orphans: set<Name>, e: Event)
    requires Inv(l, max) && Tight(l, max, orphans) && Enabled(l, e) && IsSend(e)
    ensures Tight(Next(l, max, e), max, Orphans(l, max, orphans, e))
  {
    if Open(l) {
      SendKeepsTightOpen(l, max, orphans, e);
    } else if l.shut {
      SendKeepsTightShut(l, max, orphans, e);
    } else {
      SendExtends(l.conn, max, e);
      SendKeepsTightBroken(l.conn, Sent(l.conn, max, e), max, orphans);
    }
  }

  lemma ApplyWithout(p: Statements, orphans: set<Name>, m: Msg)
    requires orphans <= p.Keys && Accepts(p, m)
    ensures Apply(p, m) - (orphans * Apply(p, m).Keys) == Apply(p - orphans, m)
  {
  }

  lemma ExecKeepsTightOpen(c: Conn, max: nat, orphans: set<Name>)
    requires Simulates(Believed(c, orphans), max) && orphans <= c.backend.Keys
    requires c.sent != [] && Accepts(c.backend, c.sent[0])
    ensures Simulates(Believed(Connection.Exec(c), orphans * Connection.Exec(c).backend.Keys), max)
  {
    ApplyWithout(c.backend, orphans, c.sent[0]);
    ExecKeeps(Believed(c, orphans), max);
    assert Believed(Connection.Exec(c), orphans * Connection.Exec(c).backend.Keys) == Connection.Exec(Believed(c, orphans));
  }

  /** The names the cache counts on stay, so only orphans come and go. */
  lemma OrphansAbsorb(before: set<Name>, after: set<Name>, orphans: set<Name>)
    requires before - orphans <= after
    ensures after - ((orphans + (after - before)) * after) == before - orphans
  {
  }

  lemma ExecKeepsTightBehindError(c: Conn, kept: set<Name>, orphans: set<Name>)
    requires c.sent != [] && kept == c.backend.Keys - orphans && forall n :: n in kept ==> Kept(c, n)
    ensures var after := Connection.Exec(c).backend.Keys;
            after - ((orphans + (after - c.backend.Keys)) * after) == kept
  {
    forall n | n in kept
      ensures n in Connection.Exec(c).backend
    {
      ExecKeepsKept(c, n);
    }
    OrphansAbsorb(c.backend.Keys, Connection.Exec(c).backend.Keys, orphans);
  }

  lemma ExecKeepsTight(l: Link, max: nat, orphans: set<Name>)
    requires Inv(l, max) && Tight(l, max, orphans) && Enabled(l, Exec)
    ensures Tight(Next(l, max, Exec), max, Orphans(l, max, orphans, Exec))
  {
    var c, c' := l.conn, Connection.Exec(l.conn);
    ExecAddsReply(c);
    if Open(l) {
      ExecKeepsTightOpen(c, max, orphans);
    } else if l.shut {
      ExecKeepsTightBehindError(c, Elems(c.tracker.order), orphans);
    } else {
      AheadOfMore(c.replies, [AnswerTo(c.sent[0])]);
      ExecKeepsTightBehindError(c, Elems(c.tracker.order) - Unconfirmed(c), orphans);
      assert Error in c'.replies;
    }
  }

  lemma FailKeepsTightOpen(c: Conn, max: nat, orphans: set<Name>)
    requires OpenInv(c) && Error !in c.replies && c.sent != []
    requires orphans <= c.backend.Keys && Simulates(Believed(c, orphans), max)
    ensures FifoAhead(Connection.Fail(c))
    ensures Elems(c.tracker.order) - Unconfirmed(Connection.Fail(c))
         == c.backend.Keys - (orphans + Removed(c.backend, c.sent))
  {
    FailBreaks(c);
    KeptWhenDropped(c.backend - orphans, c.sent, max);
    assert (c.backend - orphans).Keys - Removed(c.backend - orphans, c.sent)
        == c.backend.Keys - (orphans + Removed(c.backend, c.sent));
  }

  /** A further error costs nothing: what is still in flight takes orphans only. */
  lemma RemovedAreOrphans(c: Conn, kept: set<Name>, orphans: set<Name>)
    requires kept == c.backend.Keys - orphans && forall n :: n in kept ==> Kept(c, n)
    ensures orphans + Removed(c.backend, c.sent) == orphans
  {
    forall n | n in Removed(c.backend, c.sent)
      ensures n in orphans
    {
      assert n in kept ==> Kept(c, n);
    }
  }

  lemma FailKeepsTight(l: Link, max: nat, orphans: set<Name>)
    requires Inv(l, max) && Tight(l, max, orphans) && Enabled(l, Fail)
    ensures Tight(Next(l, max, Fail), max, Orphans(l, max, orphans, Fail))
  {
    var c := l.conn;
    FailAddsError(c);
    if Open(l) {
      FailKeepsTightOpen(c, max, orphans);
    } else if l.shut {
      RemovedAreOrphans(c, Elems(c.tracker.order), orphans);
    } else {
      RemovedAreOrphans(c, Elems(c.tracker.order) - Unconfirmed(c), orphans);
    }
  }

  lemma SettledIsTight(c: Conn, max: nat, orphans: set<Name>)
    requires WithinCap(c.tracker.order, max) && Settled(c) && Elems(c.tracker.order) == c.backend.Keys - orphans
    ensures Simulates(Believed(c, orphans), max)
  {
    ElemsCardinality(c.tracker.order);
    var p := Believed(c, orphans).backend;
    assert p.Keys == Elems(c.tracker.order) && |p| == |p.Keys|;
  }

  lemma ReadKeepsTight(l: Link, max: nat, orphans: set<Name>)
    requires Inv(l, max) && Tight(l, max, orphans) && Enabled(l, Read)
    ensures Tight(Next(l, max, Read), max, orphans)
  {
    var c, c' := l.conn, Connection.Read(l.conn).0;
    if l.shut {
      ReadWhileShut(c);
    } else if c.replies[0].Error? {
      assert c.replies[0] in c.replies;
      RollbackLeavesKept(c, max);
    } else if Error in c.replies {
      ReadPopsAhead(c);
      ReadKeepsBroken(c);
    } else {
      ReadKeepsOpen(c, max);
    }
    if (l.shut || c.replies[0].Error?) && Settled(c') {
      SettledIsTight(c', max, orphans);
    }
  }

  lemma StepKeepsTight(l: Link, max: nat, orphans: set<Name>, e: Event)
    requires Inv(l, max) && Tight(l, max, orphans) && Enabled(l, e)
    ensures Tight(Next(l, max, e), max, Orphans(l, max, orphans, e))
  {
    match e
    case Exec => ExecKeepsTight(l, max, orphans);
    case Fail => FailKeepsTight(l, max, orphans);
    case Read => ReadKeepsTight(l, max, orphans);
    case _ => SendKeepsTight(l, max, orphans, e);
  }

  lemma {:induction false} RunsKeepTight(l: Link, max: nat, orphans: set<Name>, events: seq<Event>)
    requires Inv(l, max) && Tight(l, max, orphans) && Runs(l, max, events)
    ensures Inv(After(l, max, events), max) && Tight(After(l, max, events), max, OrphansAfter(l, max, orphans, events))
    decreases |events|
  {
    if events != [] {
      var e := events[0];
      StepKeepsTight(l, max, orphans, e);
      StepKeepsInv(l, max, e);
      RunsKeepTight(Next(l, max, e), max, Orphans(l, max, orphans, e), events[1..]);
    }
  }

  lemma StartTight(max: nat)
    ensures Tight(START, max, {})
  {
    assert Believed(NEW, {}) == NEW;
  }

  /** Every run, any cap: after every rollback and whenever nothing is under way, the cache is
      the backend's set without the orphans. So it equals that set exactly when there are
      none. */
  lemma CacheLacksExactlyTheOrphans(max: nat, events: seq<Event>)
    requires Runs(START, max, events)
    ensures var l, orphans := After(START, max, events), OrphansAfter(START, max, {}, events);
            && orphans <= l.conn.backend.Keys
            && (Quiet(l) ==> Elems(l.conn.tracker.order) == l.conn.backend.Keys - orphans)
            && (Quiet(l) ==> (Elems(l.conn.tracker.order) == l.conn.backend.Keys <==> orphans == {}))
  {
    StartInv(max);
    StartTight(max);
    RunsKeepTight(START, max, {}, events);
    var l, orphans := After(START, max, events), OrphansAfter(START, max, {}, events);
    if !l.shut && Quiet(l) {
      assert Replay(l.conn.backend - orphans, l.conn.sent) == l.conn.backend - orphans;
    }
    assert l.conn.backend.Keys - orphans == l.conn.backend.Keys <==> orphans == {};
  }

  // ---------------------------------------------------------------------
  // Without a cap
  // ---------------------------------------------------------------------

  predicate IsDiscard(m: Msg) {
    m.Query? && m.discardAll
  }

  ghost predicate HasDiscard(ms: seq<Msg>) {
    exists m :: m in ms && IsDiscard(m)
  }

  /** Without a cap there are no evictions, so the wire says it in one bit: a DISCARD ALL was
      behind an error while the backend held statements, or the backend took a Parse behind
      an error; and no DISCARD ALL was executed since. */
  ghost predicate Diverged(l: Link, before: bool, e: Event)
    requires Enabled(l, e)
  {
    var c := l.conn;
    match e
    case Fail => before || (HasDiscard(c.sent) && c.backend != map[])
    case Exec =>
      if c.skipping then before
      else if IsDiscard(c.sent[0]) then false
      else before || (c.sent[0].Parse? && !Open(l))
    case Read => before
    case SendQuery(discardAll, _) => before || (discardAll && !Open(l) && c.backend != map[])
    case _ => before
  }

  ghost predicate DivergedAfter(l: Link, before: bool, events: seq<Event>)
    requires Runs(l, 0, events)
    decreases |events|
  {
    if events == [] then before else DivergedAfter(Next(l, 0, events[0]), Diverged(l, before, events[0]), events[1..])
  }

  predicate NoEvictions(ms: seq<Msg>) {
    forall m :: m in ms ==> !m.CloseStatement?
  }

  lemma RemovedByDiscard(p: Statements, ms: seq<Msg>)
    requires NoEvictions(ms)
    ensures Removed(p, ms) == if HasDiscard(ms) then p.Keys else {}
  {
    if HasDiscard(ms) {
      var m :| m in ms && IsDiscard(m);
      forall n | n in p
        ensures !Stays(ms, n)
      {
        TakenAway(ms, m, n);
      }
    }
  }

  /** The messages of one send, none of which closes a statement or, but for DISCARD ALL,
      discards. */
  ghost predicate Harmless(more: seq<Msg>, e: Event) {
    NoEvictions(more) && (HasDiscard(more) <==> e.SendQuery? && e.discardAll)
  }

  lemma QueryIsHarmless(e: Event)
    requires e.SendQuery?
    ensures Harmless([Query(e.discardAll, e.id)], e)
  {
    assert Query(e.discardAll, e.id) in [Query(e.discardAll, e.id)];
  }

  lemma UseIsHarmless(c: Conn, e: Event)
    requires e.SendUse?
    ensures var more := Sent(c, 0, e).sent[|c.sent|..];
            Harmless(more, e) && Sent(c, 0, e).sent == c.sent + more
  {
    var prepared, use := EnsurePrepared(c, 0, e.canon, e.stmt), Use(e.target, e.canon, Some(e.stmt), e.id);
    assert prepared.sent == c.sent + (if e.canon in c.tracker.order then [] else [Parse(e.canon, e.stmt, Injected)]);
    assert Sent(c, 0, e).sent == prepared.sent + [use];
  }

  lemma SendsNoEvictions(c: Conn, e: Event)
    requires WithinCap(c.tracker.order, 0) && IsSend(e)
    ensures var more := Sent(c, 0, e).sent[|c.sent|..];
            Harmless(more, e) && Sent(c, 0, e).sent == c.sent + more
  {
    if e.SendQuery? {
      QueryIsHarmless(e);
      assert Sent(c, 0, e).sent[|c.sent|..] == [Query(e.discardAll, e.id)];
    } else if e.SendUse? {
      UseIsHarmless(c, e);
    }
  }

  lemma SendKeepsBit(l: Link, orphans: set<Name>, before: bool, e: Event)
    requires Inv(l, 0) && NoEvictions(l.conn.sent) && Enabled(l, e) && IsSend(e)
    requires orphans <= l.conn.backend.Keys && (orphans == {} <==> !before)
    ensures NoEvictions(Next(l, 0, e).conn.sent)
    ensures Orphans(l, 0, orphans, e) == {} <==> !Diverged(l, before, e)
  {
    SendsNoEvictions(l.conn, e);
    RemovedByDiscard(l.conn.backend, Sent(l.conn, 0, e).sent[|l.conn.sent|..]);
  }

  lemma ExecKeepsBit(l: Link, orphans: set<Name>, before: bool)
    requires NoEvictions(l.conn.sent) && Enabled(l, Exec)
    requires orphans <= l.conn.backend.Keys && (orphans == {} <==> !before)
    ensures NoEvictions(Next(l, 0, Exec).conn.sent)
    ensures Orphans(l, 0, orphans, Exec) == {} <==> !Diverged(l, before, Exec)
  {
    var c := l.conn;
    var m, after := c.sent[0], Connection.Exec(c).backend.Keys;
    assert m in c.sent && forall x :: x in c.sent[1..] ==> x in c.sent;
    if !c.skipping && m.Parse? {
      assert after - c.backend.Keys == {m.name} && orphans * after == orphans;
    } else if !IsDiscard(m) || c.skipping {
      assert after == c.backend.Keys && (orphans + {}) * after == orphans;
    }
  }

  lemma StepKeepsBit(l: Link, orphans: set<Name>, before: bool, e: Event)
    requires Inv(l, 0) && NoEvictions(l.conn.sent) && Enabled(l, e)
    requires orphans <= l.conn.backend.Keys && (orphans == {} <==> !before)
    ensures NoEvictions(Next(l, 0, e).conn.sent)
    ensures Orphans(l, 0, orphans, e) == {} <==> !Diverged(l, before, e)
  {
    match e
    case Exec => ExecKeepsBit(l, orphans, before);
    case Fail =>
      RemovedByDiscard(l.conn.backend, l.conn.sent);
      assert forall m :: m in l.conn.sent[1..] ==> m in l.conn.sent;
    case Read =>
    case _ => SendKeepsBit(l, orphans, before, e);
  }

  lemma {:induction false} RunsKeepBit(l: Link, orphans: set<Name>, before: bool, events: seq<Event>)
    requires Inv(l, 0) && Tight(l, 0, orphans) && NoEvictions(l.conn.sent) && Runs(l, 0, events)
    requires orphans == {} <==> !before
    ensures OrphansAfter(l, 0, orphans, events) == {} <==> !DivergedAfter(l, before, events)
    decreases |events|
  {
    if events != [] {
      var e := events[0];
      StepKeepsInv(l, 0, e);
      StepKeepsTight(l, 0, orphans, e);
      StepKeepsBit(l, orphans, before, e);
      RunsKeepBit(Next(l, 0, e), Orphans(l, 0, orphans, e), Diverged(l, before, e), events[1..]);
    }
  }

  /** With an unbounded cache, after every rollback and whenever nothing is under way, the
      cache equals the backend's set exactly when no DISCARD ALL was lost to an error and no
      pipelined Parse was taken behind one, since the last DISCARD ALL that was executed. */
  lemma WithoutCapExactIff(events: seq<Event>)
    requires Runs(START, 0, events)
    ensures var l := After(START, 0, events);
            Quiet(l) ==> (Elems(l.conn.tracker.order) == l.conn.backend.Keys <==> !DivergedAfter(START, false, events))
  {
    StartInv(0);
    StartTight(0);
    RunsKeepBit(START, {}, false, events);
    CacheLacksExactlyTheOrphans(0, events);
  }

  // ---------------------------------------------------------------------
  // Where it ends
  // ---------------------------------------------------------------------

  /** A Parse that is not cached, sent although an error is not settled: the cache stays
      within the backend exactly when the backend has that name already. */
  lemma ParseWhileShut(c: Conn, max: nat, canon: Name, stmt: Stmt, id: nat)
    requires WithinCap(c.tracker.order, max) && ShutInv(c) && canon !in c.tracker.order
    ensures var c' := Connection.SendParse(c, max, canon, stmt, Client(id)).0;
            Elems(c'.tracker.order) <= c'.backend.Keys <==> canon in c.backend
  {
    NotesGrowTogether(c.tracker, max, canon, Forward);
    assert Elems(c.tracker.order) <= c.backend.Keys by {
      assert forall n :: n in c.tracker.order ==> Kept(c, n);
    }
    var t := c.tracker.RecordPrepare(max, canon, Forward).0;
    assert canon in Elems(t.order);
  }

  lemma {:induction false} RunsCons(l: Link, max: nat, orphans: set<Name>, e: Event, next: Link, rest: seq<Event>)
    requires Enabled(l, e) && Next(l, max, e) == next && Runs(next, max, rest)
    ensures Runs(l, max, [e] + rest) && After(l, max, [e] + rest) == After(next, max, rest)
    ensures OrphansAfter(l, max, orphans, [e] + rest) == OrphansAfter(next, max, Orphans(l, max, orphans, e), rest)
  {
    assert ([e] + rest)[1..] == rest;
  }

  function OnePrepared(a: Name, s: Stmt): Link {
    Link(Conn(Tracker([a], [], []), map[a := s], false, [], []), false)
  }

  lemma PreparedFromStart(a: Name, s: Stmt, rest: seq<Event>)
    requires Runs(OnePrepared(a, s), 1, rest)
    ensures var events := [SendParse(a, s, 0)] + ([Exec] + ([Read] + rest));
            && Runs(START, 1, events) && After(START, 1, events) == After(OnePrepared(a, s), 1, rest)
            && OrphansAfter(START, 1, {}, events) == OrphansAfter(OnePrepared(a, s), 1, {}, rest)
  {
    var t := Tracker([a], [ParseReply(Forward, a)], []);
    var l1 := Link(Conn(t, map[], false, [Parse(a, s, Client(0))], []), false);
    assert Next(START, 1, SendParse(a, s, 0)) == l1;
    var l2 := Link(Conn(t, map[a := s], false, [], [ParseComplete(a, Client(0))]), false);
    assert Next(l1, 1, Exec) == l2;
    assert Next(l2, 1, Read) == OnePrepared(a, s);
    RunsCons(l2, 1, {}, Read, OnePrepared(a, s), rest);
    RunsCons(l1, 1, {}, Exec, l2, [Read] + rest);
    assert Orphans(l1, 1, {}, Exec) == {};
    RunsCons(START, 1, {}, SendParse(a, s, 0), l1, [Exec] + ([Read] + rest));
  }

  /** What one batch puts on the wire behind a Bind of an unknown name. */
  function Skipped(a: Name, b: Name, s: Stmt): seq<Msg> {
    [CloseStatement(a), Parse(b, s, Client(2))]
  }

  /** The connection after the rollback, while the backend skips these messages. */
  function Skipping(a: Name, s: Stmt, ms: seq<Msg>): Link {
    Link(Conn(EMPTY, map[a := s], true, ms, []), true)
  }

  lemma EvictionSent(a: Name, b: Name, s: Stmt, u: Msg)
    requires a != b
    ensures var t := Tracker([b], [ParseReply(Forward, b)], [Suppress]);
            Next(Link(Conn(Tracker([a], [], []), map[a := s], false, [u], []), false), 1, SendParse(b, s, 2))
              == Link(Conn(t, map[a := s], false, [u] + Skipped(a, b, s), []), false)
  {
    assert [a][1..] + [b] == [b];
    assert Used([a], 1, b) == ([b], Some(a));
    assert [u] + [CloseStatement(a)] + [Parse(b, s, Client(2))] == [u] + Skipped(a, b, s);
  }

  lemma UseRejected(a: Name, b: Name, s: Stmt, u: Msg, t: Tracker)
    requires u.Use?
    ensures var l := Link(Conn(t, map[a := s], false, [u] + Skipped(a, b, s), []), false);
            && Next(l, 1, Fail) == Link(Conn(t, map[a := s], true, Skipped(a, b, s), [Error]), false)
            && Orphans(l, 1, {}, Fail) == {a}
  {
    var sent := [u] + Skipped(a, b, s);
    assert sent[1] == CloseStatement(a) && sent[1..] == Skipped(a, b, s);
    TakenAway(sent, CloseStatement(a), a);
    assert Removed(map[a := s], sent) == {a};
  }

  lemma EvictionForgotten(a: Name, b: Name, s: Stmt)
    ensures var t := Tracker([b], [ParseReply(Forward, b)], [Suppress]);
            Next(Link(Conn(t, map[a := s], true, Skipped(a, b, s), [Error]), false), 1, Read)
              == Skipping(a, s, Skipped(a, b, s))
  {
    var pending := [ParseReply(Forward, b)];
    assert Without([b], b) == [] && pending[1..] == [];
    assert RolledBackOrder([b], pending) == RolledBackOrder([], []) == [];
  }

  /** The batch whose Bind is rejected, up to the rollback. */
  lemma BatchRejected(a: Name, b: Name, s: Stmt, n: Name, rest: seq<Event>)
    requires a != b && Runs(Skipping(a, s, Skipped(a, b, s)), 1, rest)
    ensures var events := [SendRaw(Target.Bind, n, 1)] + ([SendParse(b, s, 2)] + ([Fail] + ([Read] + rest)));
            var end := Skipping(a, s, Skipped(a, b, s));
            && Runs(OnePrepared(a, s), 1, events) && After(OnePrepared(a, s), 1, events) == After(end, 1, rest)
            && OrphansAfter(OnePrepared(a, s), 1, {}, events) == OrphansAfter(end, 1, {a}, rest)
  {
    var u, t := Use(Target.Bind, n, None, 1), Tracker([b], [ParseReply(Forward, b)], [Suppress]);
    var l1 := Link(Conn(Tracker([a], [], []), map[a := s], false, [u], []), false);
    var l2 := Link(Conn(t, map[a := s], false, [u] + Skipped(a, b, s), []), false);
    var l3 := Link(Conn(t, map[a := s], true, Skipped(a, b, s), [Error]), false);
    EvictionSent(a, b, s, u);
    UseRejected(a, b, s, u, t);
    EvictionForgotten(a, b, s);
    RunsCons(l3, 1, {a}, Read, Skipping(a, s, Skipped(a, b, s)), rest);
    RunsCons(l2, 1, {}, Fail, l3, [Read] + rest);
    RunsCons(l1, 1, {}, SendParse(b, s, 2), l2, [Fail] + ([Read] + rest));
    RunsCons(OnePrepared(a, s), 1, {}, SendRaw(Target.Bind, n, 1), l1, [SendParse(b, s, 2)] + ([Fail] + ([Read] + rest)));
  }

  /** One message that the backend skips. */
  lemma SkippedOne(a: Name, s: Stmt, m: Msg, ms: seq<Msg>, rest: seq<Event>)
    requires !m.Sync? && Runs(Skipping(a, s, ms), 1, rest)
    ensures var l := Skipping(a, s, [m] + ms);
            && Runs(l, 1, [Exec] + rest) && After(l, 1, [Exec] + rest) == After(Skipping(a, s, ms), 1, rest)
            && OrphansAfter(l, 1, {a}, [Exec] + rest) == OrphansAfter(Skipping(a, s, ms), 1, {a}, rest)
  {
    var l := Skipping(a, s, [m] + ms);
    assert ([m] + ms)[1..] == ms;
    assert Orphans(l, 1, {a}, Exec) == {a};
    RunsCons(l, 1, {a}, Exec, Skipping(a, s, ms), rest);
  }

  lemma SyncSent(a: Name, b: Name, s: Stmt)
    ensures var l := Skipping(a, s, Skipped(a, b, s));
            && Next(l, 1, SendSync(3)) == Skipping(a, s, [CloseStatement(a)] + ([Parse(b, s, Client(2))] + [Sync(3)]))
            && Orphans(l, 1, {a}, SendSync(3)) == {a}
  {
    var sent := Skipped(a, b, s) + [Sync(3)];
    assert sent == [CloseStatement(a)] + ([Parse(b, s, Client(2))] + [Sync(3)]);
    assert sent[|Skipped(a, b, s)|..] == [Sync(3)];
    assert Removed(map[a := s], [Sync(3)]) == {};
  }

  /** The Sync that ends the batch. */
  lemma BatchEnds(a: Name, b: Name, s: Stmt, rest: seq<Event>)
    requires Runs(Link(Conn(EMPTY, map[a := s], false, [], []), false), 1, rest)
    ensures var events := [SendSync(3)] + ([Exec] + ([Exec] + ([Exec] + ([Read] + rest))));
            var start, end := Skipping(a, s, Skipped(a, b, s)), Link(Conn(EMPTY, map[a := s], false, [], []), false);
            && Runs(start, 1, events) && After(start, 1, events) == After(end, 1, rest)
            && OrphansAfter(start, 1, {a}, events) == OrphansAfter(end, 1, {a}, rest)
  {
    var l9 := Link(Conn(EMPTY, map[a := s], false, [], []), false);
    var l8 := Link(Conn(EMPTY, map[a := s], false, [], [Ready(3)]), true);
    RunsCons(l8, 1, {a}, Read, l9, rest);
    var l7 := Skipping(a, s, [Sync(3)]);
    assert Orphans(l7, 1, {a}, Exec) == {a};
    RunsCons(l7, 1, {a}, Exec, l8, [Read] + rest);
    var pb := Parse(b, s, Client(2));
    SkippedOne(a, s, pb, [Sync(3)], [Exec] + ([Read] + rest));
    SkippedOne(a, s, CloseStatement(a), [pb] + [Sync(3)], [Exec] + ([Exec] + ([Read] + rest)));
    SyncSent(a, b, s);
    var l5 := Skipping(a, s, [CloseStatement(a)] + ([pb] + [Sync(3)]));
    var l4 := Skipping(a, s, Skipped(a, b, s));
    RunsCons(l4, 1, {a}, SendSync(3), l5, [Exec] + ([Exec] + ([Exec] + ([Read] + rest))));
  }

  /** The run behind `SkippedEvictionIsRejectedLater`: a statement; a batch with a Bind of a name
      that is not prepared and a Parse that evicts the statement; the next Parse of it. */
  function SkippedEviction(a: Name, b: Name, s: Stmt, n: Name): seq<Event> {
    var late := [SendSync(3)] + ([Exec] + ([Exec] + ([Exec] + ([Read] + [SendParse(a, s, 4)]))));
    [SendParse(a, s, 0)] + ([Exec] + ([Read] +
      ([SendRaw(Target.Bind, n, 1)] + ([SendParse(b, s, 2)] + ([Fail] + ([Read] + late))))))
  }

  /** With a cap, an eviction Close that the backend skips behind a rejected Bind orphans its
      statement, and the next Parse of it is rejected: a run from a fresh connection. */
  lemma SkippedEvictionIsRejectedLater(a: Name, b: Name, s: Stmt, n: Name)
    requires a != b && n != a
    ensures var events := SkippedEviction(a, b, s, n);
            && Runs(START, 1, events) && OrphansAfter(START, 1, {}, events) == {a}
            && After(START, 1, events).conn.sent == [Parse(a, s, Client(4))]
            && !Accepts(After(START, 1, events).conn.backend, Parse(a, s, Client(4)))
  {
    var end := Link(Conn(EMPTY, map[a := s], false, [], []), false);
    var last := Next(end, 1, SendParse(a, s, 4));
    assert last.conn.sent == [Parse(a, s, Client(4))];
    RunsCons(end, 1, {a}, SendParse(a, s, 4), last, []);
    assert [SendParse(a, s, 4)] + [] == [SendParse(a, s, 4)];
    BatchEnds(a, b, s, [SendParse(a, s, 4)]);
    var late := [SendSync(3)] + ([Exec] + ([Exec] + ([Exec] + ([Read] + [SendParse(a, s, 4)]))));
    BatchRejected(a, b, s, n, late);
    PreparedFromStart(a, s, [SendRaw(Target.Bind, n, 1)] + ([SendParse(b, s, 2)] + ([Fail] + ([Read] + late))));
  }
}
