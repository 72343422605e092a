/** The state tracker: an index that writers advance, and polling requests that a single
    loop answers once the index has moved on. */
module Tracker {
  const MAX_INDEX: nat := 0xffff_ffff_ffff_ffff

  /** Answer to a polling request.  `at` is history: how many notifications had taken
      effect when the answer was made. */
  datatype Response = Response(index: nat, terminated: bool, at: nat)

  /** The state that the lock protects.  A polling request is identified by a number and
      maps to its previous index; `responses` holds the contents of the one-slot response
      channels that are full. */
  datatype Shared = Shared(
    index: nat,
    terminated: bool,
    pollRequests: map<nat, nat>,
    responses: map<nat, Response>,
    notifications: nat           // history: notifications that took effect
  ) {
    /** Requests the loop answers when it next runs. */
    function Due(): set<nat> {
      set r | r in pollRequests && (terminated || pollRequests[r] != index)
    }
  }

  /** The index after so many notifications: it skips 0 when it overflows. */
  function IndexAfter(notifications: nat): nat { 1 + notifications % MAX_INDEX }

  predicate SharedInv(s: Shared) {
    && s.index == IndexAfter(s.notifications)
    && s.pollRequests.Keys !! s.responses.Keys
    && (forall r | r in s.pollRequests :: s.pollRequests[r] != 0)
    && (forall r | r in s.responses ::
          s.responses[r].at <= s.notifications && s.responses[r].index == IndexAfter(s.responses[r].at))
  }

  /** The response channels once `requests` have been answered. */
  function Answered(s: Shared, requests: set<nat>): map<nat, Response> {
    map r | r in s.responses.Keys + requests ::
      if r in requests then Response(s.index, s.terminated, s.notifications) else s.responses[r]
  }

  lemma AnswerOneMore(s: Shared, answered: set<nat>, r: nat)
    ensures Answered(s, answered + {r}) == Answered(s, answered)[r := Response(s.index, s.terminated, s.notifications)]
    ensures s.pollRequests - (answered + {r}) == (s.pollRequests - answered) - {r}
  {
  }

  /** One pass of the loop body, up to the point where it waits again. */
  function Pass(s: Shared): Shared {
    s.(pollRequests := s.pollRequests - s.Due(), responses := Answered(s, s.Due()))
  }

  function Notified(s: Shared): Shared {
    if s.terminated then s
    else s.(index := if s.index == MAX_INDEX then 1 else s.index + 1, notifications := s.notifications + 1)
  }

  function Registered(s: Shared, r: nat, previousIndex: nat): Shared {
    s.(pollRequests := s.pollRequests[r := previousIndex])
  }

  function Deregistered(s: Shared, r: nat): Shared {
    s.(pollRequests := s.pollRequests - {r})
  }

  function Taken(s: Shared, r: nat): Shared {
    s.(responses := s.responses - {r})
  }

  /** The index is a 64-bit number: it starts at 1, advances by one, and goes from the highest
      back to 1. */
  lemma IndexAdvances(n: nat)
    ensures IndexAfter(0) == 1
    ensures IndexAfter(n + 1) == if IndexAfter(n) == 0xffff_ffff_ffff_ffff then 1 else IndexAfter(n) + 1
  {
    var q, k := n / MAX_INDEX, n % MAX_INDEX;
    assert n == q * MAX_INDEX + k;
    if k + 1 == MAX_INDEX {
      assert n + 1 == (q + 1) * MAX_INDEX;
      ModuloOfSum(q + 1, 0);
    } else {
      assert n + 1 == q * MAX_INDEX + (k + 1);
      ModuloOfSum(q, k + 1);
    }
  }

  lemma ModuloOfSum(q: nat, k: nat)
    requires k < MAX_INDEX
    ensures (q * MAX_INDEX + k) % MAX_INDEX == k
  {
    var m := q * MAX_INDEX + k;
    var q', k' := m / MAX_INDEX, m % MAX_INDEX;
    assert m == q' * MAX_INDEX + k';
    assert (q - q') * MAX_INDEX == k' - k;
  }

  /** Two equal indices are whole overflow periods apart. */
  lemma SameIndex(earlier: nat, later: nat)
    requires earlier <= later && IndexAfter(earlier) == IndexAfter(later)
    ensures (later - earlier) % MAX_INDEX == 0
  {
    var q, q' := earlier / MAX_INDEX, later / MAX_INDEX;
    assert later - earlier == (q' - q) * MAX_INDEX;
    assert q' >= q;
    ModuloOfSum(q' - q, 0);
  }

  lemma NotifiedKeepsInv(s: Shared)
    requires SharedInv(s)
    ensures SharedInv(Notified(s))
  {
    IndexAdvances(s.notifications);
  }

  lemma PassKeepsInv(s: Shared)
    requires SharedInv(s)
    ensures s.Due() !! s.responses.Keys && SharedInv(Pass(s))
  {
  }

  class Tracker {
    var index: nat
    var terminated: bool
    var pollRequests: map<nat, nat>
    var responses: map<nat, Response>
    var notifications: nat       // history

    ghost function State(): Shared
      reads this
    {
      Shared(index, terminated, pollRequests, responses, notifications)
    }

    constructor ()
      ensures SharedInv(State()) && State() == Shared(1, false, map[], map[], 0)
    {
      index, terminated, pollRequests, responses, notifications := 1, false, map[], map[], 0;
    }

    method Terminate()
      requires SharedInv(State())
      modifies this
      ensures SharedInv(State()) && State() == old(State()).(terminated := true)
    {
      terminated := true;
    }

    /** The addition wraps around at 64 bits. */
    method NotifyOfChange()
      requires SharedInv(State())
      modifies this
      ensures SharedInv(State()) && State() == Notified(old(State()))
    {
      if terminated { return; }
      NotifiedKeepsInv(State());
      index := (index + 1) % (MAX_INDEX + 1);
      if index == 0 { index := 1; }
      notifications := notifications + 1;
    }

    /** One pass of the tracking loop, from waking up to waiting again or exiting.  No
        response channel it sends to is already full. */
    method Track() returns (exit: bool)
      requires SharedInv(State())
      modifies this
      ensures SharedInv(State()) && State() == Pass(old(State()))
      ensures exit == terminated
      ensures exit ==> pollRequests == map[]
    {
      ghost var was := State();
      exit := terminated;
      var unvisited := pollRequests.Keys;
      while unvisited != {}
        invariant State() == was.(pollRequests := pollRequests, responses := responses)
        invariant unvisited <= pollRequests.Keys
        invariant pollRequests == was.pollRequests - (was.Due() - unvisited)
        invariant responses == Answered(was, was.Due() - unvisited)
        decreases unvisited
      {
        var r :| r in unvisited;
        ghost var done := was.Due() - unvisited;
        unvisited := unvisited - {r};
        if terminated || pollRequests[r] != index {
          assert r !in responses;
          Send(r, Response(index, terminated, notifications));
          pollRequests := pollRequests - {r};
          assert was.Due() - unvisited == done + {r};
          AnswerOneMore(was, done, r);
        } else {
          assert was.Due() - unvisited == done;
        }
      }
      assert was.Due() - unvisited == was.Due();
    }

    /** A send to a response channel, which must not be full. */
    method Send(r: nat, response: Response)
      requires r !in responses
      modifies this`responses
      ensures responses == old(responses)[r := response]
    {
      responses := responses[r := response];
    }

    /** WaitForChange up to the point where it waits for an answer: either it returns at
        once, or the request is registered. */
    method BeginWait(r: nat, previousIndex: nat) returns (immediate: bool, found: nat, isTerminated: bool)
      requires SharedInv(State()) && r !in pollRequests && r !in responses
      modifies this
      ensures SharedInv(State())
      ensures immediate <==> previousIndex == 0 || terminated
      ensures immediate ==> State() == old(State()) && found == index && isTerminated == terminated
      ensures !immediate ==> State() == Registered(old(State()), r, previousIndex)
    {
      immediate, found, isTerminated := true, index, terminated;
      if previousIndex == 0 { return; }
      if terminated { return; }
      pollRequests := pollRequests[r := previousIndex];
      immediate := false;
    }

    /** WaitForChange after its context was cancelled. */
    method CancelWait(r: nat) returns (found: nat)
      requires SharedInv(State())
      modifies this
      ensures SharedInv(State()) && State() == Deregistered(old(State()), r) && found == index
    {
      pollRequests := pollRequests - {r};
      found := index;
    }
  }
}
