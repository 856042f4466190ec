/** Prepared-statement state of a connection: cache and reply FIFOs. */
module Server {
  import opened Options
  import opened Lru

  datatype Reply = Forward | Suppress

  /** A Parse awaiting its backend reply. */
  datatype ParseReply = ParseReply(reply: Reply, canon: Name)

  datatype ClientParse = Synthesize | ForwardParse(eviction: Option<Name>)
  datatype Reprepare = AlreadyPrepared | Prepare(eviction: Option<Name>)

  function RolledBackOrder(order: seq<Name>, parses: seq<ParseReply>): seq<Name>
    decreases |parses|
  {
    if parses == [] then order else RolledBackOrder(Without(order, parses[0].canon), parses[1..])
  }

  /** The abstract state of a `PreparedStatements` object: the cache oldest first,
      and one entry per Parse and per Close still unanswered, in send order. */
  datatype Tracker = Tracker(order: seq<Name>, parses: seq<ParseReply>, closes: seq<Reply>) {

    function RecordPrepare(max: nat, canon: Name, reply: Reply): (Tracker, Option<Name>) {
      var (order', eviction) := Used(order, max, canon);
      var closes' := if eviction.Some? then closes + [Suppress] else closes;
      (Tracker(order', parses + [ParseReply(reply, canon)], closes'), eviction)
    }

    function NoteClientParse(max: nat, canon: Name): (Tracker, ClientParse) {
      if canon in order then (this.(order := Used(order, max, canon).0), Synthesize)
      else
        var (t, eviction) := RecordPrepare(max, canon, Forward);
        (t, ForwardParse(eviction))
    }

    function NoteReprepare(max: nat, canon: Name): (Tracker, Reprepare) {
      if canon in order then (this.(order := Used(order, max, canon).0), AlreadyPrepared)
      else
        var (t, eviction) := RecordPrepare(max, canon, Suppress);
        (t, Prepare(eviction))
    }

    function NotePortalClose(): Tracker {
      this.(closes := closes + [Forward])
    }

    function NextParseReply(): (Tracker, Reply) {
      if parses == [] then (this, Forward) else (this.(parses := parses[1..]), parses[0].reply)
    }

    function NextCloseReply(): (Tracker, Reply) {
      if closes == [] then (this, Forward) else (this.(closes := closes[1..]), closes[0])
    }

    function RollBackAfterError(): Tracker {
      Tracker(RolledBackOrder(order, parses), [], [])
    }

    function DiscardAll(): Tracker {
      this.(order := [])
    }

    function ResetPending(): Tracker {
      this.(parses := [], closes := [])
    }
  }

  const EMPTY := Tracker([], [], [])

  function PendingNames(parses: seq<ParseReply>): (s: set<Name>)
    ensures forall x :: x in s <==> exists i :: 0 <= i < |parses| && parses[i].canon == x
  {
    set i | 0 <= i < |parses| :: parses[i].canon
  }

  /** The rollback forgets exactly the names whose Parse is unconfirmed, and keeps the cap. */
  lemma {:induction false} RollBackForgetsUnconfirmed(order: seq<Name>, max: nat, parses: seq<ParseReply>)
    requires WithinCap(order, max)
    ensures WithinCap(RolledBackOrder(order, parses), max)
    ensures Elems(RolledBackOrder(order, parses)) == Elems(order) - PendingNames(parses)
    decreases |parses|
  {
    if parses != [] {
      var w := Without(order, parses[0].canon);
      WithoutKeepsNoDup(order, parses[0].canon);
      RollBackForgetsUnconfirmed(w, max, parses[1..]);
      assert PendingNames(parses) == {parses[0].canon} + PendingNames(parses[1..]) by {
        assert parses == [parses[0]] + parses[1..];
      }
      assert Elems(w) == Elems(order) - {parses[0].canon};
    }
  }

  /** What a note keeps and changes: the cap, and the two queues grow together with the cache. */
  lemma NotesGrowTogether(t: Tracker, max: nat, canon: Name, reply: Reply)
    requires WithinCap(t.order, max) && canon !in t.order
    ensures var (t', eviction) := t.RecordPrepare(max, canon, reply);
            && WithinCap(t'.order, max)
            && canon in t'.order
            && t'.parses == t.parses + [ParseReply(reply, canon)]
            && (eviction.None? ==> Elems(t'.order) == Elems(t.order) + {canon} && t'.closes == t.closes)
            && (eviction.Some? ==>
                  && eviction.value in t.order
                  && Elems(t'.order) == Elems(t.order) - {eviction.value} + {canon}
                  && t'.closes == t.closes + [Suppress])
  {
    UsedKeepsCap(t.order, max, canon);
  }

  class PreparedStatements {
    const cache: Lru
    var parseReplies: seq<ParseReply>
    var closeReplies: seq<Reply>

    ghost predicate Valid()
      reads this, cache
    {
      cache.Valid()
    }

    ghost function State(): Tracker
      reads this, cache
    {
      Tracker(cache.order, parseReplies, closeReplies)
    }

    constructor (max: nat)
      requires max < U32_LIMIT
      ensures Valid() && fresh(cache) && cache.max == max && State() == EMPTY
    {
      cache := new Lru(max);
      parseReplies, closeReplies := [], [];
    }

    method NoteClientParse(canon: Name) returns (r: ClientParse)
      requires Valid()
      modifies this, cache
      ensures Valid()
      ensures (State(), r) == old(State().NoteClientParse(cache.max, canon))
    {
      var hit := cache.Contains(canon);
      if hit {
        cache.Touch(canon);
        r := Synthesize;
      } else {
        var eviction := RecordPrepare(canon, Forward);
        r := ForwardParse(eviction);
      }
    }

    method NoteReprepare(canon: Name) returns (r: Reprepare)
      requires Valid()
      modifies this, cache
      ensures Valid()
      ensures (State(), r) == old(State().NoteReprepare(cache.max, canon))
    {
      var hit := cache.Contains(canon);
      if hit {
        cache.Touch(canon);
        r := AlreadyPrepared;
      } else {
        var eviction := RecordPrepare(canon, Suppress);
        r := Prepare(eviction);
      }
    }

    method RecordPrepare(canon: Name, reply: Reply) returns (eviction: Option<Name>)
      requires Valid()
      modifies this, cache
      ensures Valid()
      ensures (State(), eviction) == old(State().RecordPrepare(cache.max, canon, reply))
    {
      eviction := cache.Insert(canon);
      if eviction.Some? {
        closeReplies := closeReplies + [Suppress];
      }
      parseReplies := parseReplies + [ParseReply(reply, canon)];
    }

    method NotePortalClose()
      requires Valid()
      modifies this
      ensures Valid() && State() == old(State().NotePortalClose())
    {
      closeReplies := closeReplies + [Forward];
    }

    method NextParseReply() returns (r: Reply)
      requires Valid()
      modifies this
      ensures Valid() && (State(), r) == old(State().NextParseReply())
    {
      if parseReplies == [] {
        r := Forward;
      } else {
        r := parseReplies[0].reply;
        parseReplies := parseReplies[1..];
      }
    }

    method NextCloseReply() returns (r: Reply)
      requires Valid()
      modifies this
      ensures Valid() && (State(), r) == old(State().NextCloseReply())
    {
      if closeReplies == [] {
        r := Forward;
      } else {
        r := closeReplies[0];
        closeReplies := closeReplies[1..];
      }
    }

    method RollBackAfterError()
      requires Valid()
      modifies this, cache
      ensures Valid() && State() == old(State().RollBackAfterError())
    {
      closeReplies := [];
      while parseReplies != []
        invariant Valid() && closeReplies == []
        invariant RolledBackOrder(cache.order, parseReplies) == old(RolledBackOrder(cache.order, parseReplies))
        decreases |parseReplies|
      {
        var pending := parseReplies[0];
        parseReplies := parseReplies[1..];
        cache.Remove(pending.canon);
      }
    }

    method DiscardAll()
      requires Valid()
      modifies cache
      ensures Valid() && State() == old(State().DiscardAll())
    {
      cache.Clear();
    }

    method ResetPending()
      requires Valid()
      modifies this
      ensures Valid() && State() == old(State().ResetPending())
    {
      parseReplies, closeReplies := [], [];
    }
  }
}
