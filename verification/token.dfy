/** The cancellation token (src/token.rs): an atomic state and a mutex-guarded interrupt handle.

    `Token` is the token as a value, with one function per atomic section; the step system of the isle is
    built from these functions.  `CancelToken` is the object, with the source's methods; each method lists
    what other threads do between its atomic sections and is proved for every such list. */
module Tokens {
  import opened Errors

  datatype Reason = Cancel | Expire

  datatype TokenState = Unfired | CancelFired | ExpireFired

  function StateFor(r: Reason): TokenState {
    match r case Cancel => CancelFired case Expire => ExpireFired
  }

  /** `calls` counts the `sqlite3_interrupt` calls made through the token. */
  datatype Token = Token(state: TokenState, attached: bool, calls: nat) {
    /** `compare_exchange(NONE, reason)`: the first reason stays. */
    function Cas(r: Reason): Token {
      if state.Unfired? then this.(state := StateFor(r)) else this
    }

    /** Lock the handle and, if there is one, interrupt through it. */
    function Interrupt(): Token {
      if attached then this.(calls := calls + 1) else this
    }

    function Store(): Token { this.(attached := true) }

    function Clear(): Token { this.(attached := false) }

    function Fired(): Option<IsleError> {
      match state
      case Unfired => None
      case CancelFired => Some(Cancelled)
      case ExpireFired => Some(Timeout)
    }
  }

  const FRESH := Token(Unfired, false, 0)

  type InterruptHandle = nat

  /** One atomic section executed by some thread. */
  datatype Section = DoCas(r: Reason) | DoInterrupt | DoStore(h: InterruptHandle) | DoClear

  function Do(t: Token, s: Section): Token {
    match s
    case DoCas(r) => t.Cas(r)
    case DoInterrupt => t.Interrupt()
    case DoStore(_) => t.Store()
    case DoClear => t.Clear()
  }

  function Play(t: Token, sections: seq<Section>): Token {
    if sections == [] then t
    else Do(Play(t, sections[..|sections| - 1]), sections[|sections| - 1])
  }

  function FirstCas(sections: seq<Section>): Option<Reason> {
    if sections == [] then None
    else if sections[0].DoCas? then Some(sections[0].r)
    else FirstCas(sections[1..])
  }

  lemma {:induction false} FirstCasOfPrefix(sections: seq<Section>, last: Section)
    ensures FirstCas(sections + [last]) ==
            if FirstCas(sections).Some? then FirstCas(sections)
            else if last.DoCas? then Some(last.r) else None
  {
    if sections == [] {
      assert [last][1..] == [];
    } else {
      assert (sections + [last])[1..] == sections[1..] + [last];
      FirstCasOfPrefix(sections[1..], last);
    }
  }

  /** First reason wins: whatever the threads do and in whatever order, the reason of the first
      compare-exchange is the one every later reader sees. */
  lemma {:induction false} FirstReasonWins(t: Token, sections: seq<Section>)
    ensures Play(t, sections).state ==
            if !t.state.Unfired? then t.state
            else match FirstCas(sections) case None => Unfired case Some(r) => StateFor(r)
  {
    if sections != [] {
      var init, last := sections[..|sections| - 1], sections[|sections| - 1];
      assert sections == init + [last];
      FirstReasonWins(t, init);
      FirstCasOfPrefix(init, last);
    }
  }

  /** The handle after some sections: the last store or clear decides. */
  function HandleAfter(h: Option<InterruptHandle>, sections: seq<Section>): Option<InterruptHandle> {
    if sections == [] then h
    else
      match sections[|sections| - 1]
      case DoStore(g) => Some(g)
      case DoClear => None
      case _ => HandleAfter(h, sections[..|sections| - 1])
  }

  predicate NoStores(sections: seq<Section>) {
    forall i :: 0 <= i < |sections| ==> !sections[i].DoStore? && !sections[i].DoClear?
  }

  /** Sections that only fire and interrupt leave the handle alone. */
  lemma {:induction false} FiresLeaveHandle(h: Option<InterruptHandle>, sections: seq<Section>)
    requires NoStores(sections)
    ensures HandleAfter(h, sections) == h
  {
    if sections != [] {
      FiresLeaveHandle(h, sections[..|sections| - 1]);
    }
  }

  /** What a reader of a token that was new sees: nothing before the first compare-exchange, its reason ever after. */
  lemma FiredNamesTheFirst(sections: seq<Section>)
    ensures Play(FRESH, sections).Fired() ==
            match FirstCas(sections)
            case None => None
            case Some(r) => Some(if r.Cancel? then Cancelled else Timeout)
  {
    FirstReasonWins(FRESH, sections);
  }

  class CancelToken {
    var state: TokenState
    var handle: Option<InterruptHandle>
    /** The `sqlite3_interrupt` calls made so far, by the connection they were made on. */
    var interrupts: seq<InterruptHandle>

    function Model(): Token
      reads this
    {
      Token(state, handle.Some?, |interrupts|)
    }

    constructor ()
      ensures Model() == FRESH
    {
      state, handle, interrupts := Unfired, None, [];
    }

    predicate IsCancelled()
      reads this
      ensures IsCancelled() <==> Model().Fired() == Some(Cancelled)
    {
      state == CancelFired
    }

    /** None exactly while nobody has fired; otherwise one of two errors, told apart by `IsCancelled`. */
    function Fired(): (r: Option<IsleError>)
      reads this
      ensures r.None? <==> state.Unfired?
      ensures r.Some? ==> r.value == if IsCancelled() then Cancelled else Timeout
    {
      Model().Fired()
    }

    method Cancel(meanwhile: seq<Section>)
      modifies this
      ensures Model() == Play(old(Model()).Cas(Reason.Cancel), meanwhile).Interrupt()
    {
      Fire(Reason.Cancel, meanwhile);
    }

    method ExpireDeadline(meanwhile: seq<Section>)
      modifies this
      ensures Model() == Play(old(Model()).Cas(Expire), meanwhile).Interrupt()
    {
      Fire(Expire, meanwhile);
    }

    /** The state is written first; the handle is locked and read afterwards.  An interrupt goes to the
        connection that is attached at that second moment, and to no other. */
    method Fire(r: Reason, meanwhile: seq<Section>)
      modifies this
      ensures Model() == Play(old(Model()).Cas(r), meanwhile).Interrupt()
      ensures !state.Unfired? && handle == HandleAfter(old(handle), meanwhile)
      ensures handle.Some? ==> interrupts != [] && interrupts[|interrupts| - 1] == handle.value
    {
      if state == Unfired {
        state := StateFor(r);
      }
      ghost var mine := Model();
      Others(meanwhile);
      FirstReasonWins(mine, meanwhile);
      InterruptIfAttached();
    }

    /** Register the handle, then look at the state: a fire that came too early to find the handle is
        made good here. */
    method Attach(h: InterruptHandle, afterStore: seq<Section>, afterLoad: seq<Section>)
      modifies this
      ensures var stored := Play(old(Model()).Store(), afterStore);
              && Model() == (if stored.state.Unfired? then Play(stored, afterLoad)
                             else Play(stored, afterLoad).Interrupt())
              && handle == HandleAfter(HandleAfter(Some(h), afterStore), afterLoad)
              && (!stored.state.Unfired? && handle.Some? ==>
                    interrupts != [] && interrupts[|interrupts| - 1] == handle.value)
      ensures NoStores(afterStore) && NoStores(afterLoad) ==> handle == Some(h)
    {
      if NoStores(afterStore) && NoStores(afterLoad) {
        FiresLeaveHandle(Some(h), afterStore);
        FiresLeaveHandle(Some(h), afterLoad);
      }
      handle := Some(h);
      Others(afterStore);
      var fired := state != Unfired;
      Others(afterLoad);
      if fired {
        InterruptIfAttached();
      }
    }

    method Detach()
      modifies this
      ensures Model() == old(Model()).Clear() && interrupts == old(interrupts)
    {
      handle := None;
    }

    method InterruptIfAttached()
      modifies this
      ensures Model() == old(Model()).Interrupt()
      ensures state == old(state) && handle == old(handle)
      ensures interrupts == old(interrupts) + if handle.Some? then [handle.value] else []
    {
      if handle.Some? {
        interrupts := interrupts + [handle.value];
      }
    }

    /** Other threads run these sections. */
    method Others(sections: seq<Section>)
      modifies this
      ensures Model() == Play(old(Model()), sections) && handle == HandleAfter(old(handle), sections)
    {
      for i := 0 to |sections|
        invariant Model() == Play(old(Model()), sections[..i]) && handle == HandleAfter(old(handle), sections[..i])
      {
        assert sections[..i + 1][..i] == sections[..i];
        match sections[i] {
          case DoCas(r) => if state == Unfired { state := StateFor(r); }
          case DoInterrupt => InterruptIfAttached();
          case DoStore(h) => handle := Some(h);
          case DoClear => handle := None;
        }
      }
      assert sections[..|sections|] == sections;
    }
  }
}
