/** The SFTP connection manager: wrappers with a monitor each, closed and replaced while their
    SSH connections drop and are dialled again. Waiting on a dead connection always ends with
    an error, and a monitor's reconnect succeeds; the code panics otherwise. */
module Connections {
  import opened Common

  type ConnId = nat
  type WrapperId = nat

  /** What the goroutine running handleReconnects is doing. */
  datatype Monitor =
    | Watching                      // in the select
    | Reconnecting                  // saw its connection end
    | Installing(fresh_: ConnId)    // dialled, about to take the wrapper's lock
    | Stopped                       // left through shutdown

  /** token: the shutdown channel holds its one message. busy: a Close holds the lock, between
      its send and its return. */
  datatype Wrapper = Wrapper(conn: ConnId, closed: bool, token: bool, busy: bool, monitor: Monitor, reconnects: nat)

  datatype Phase = Free | Dialing | Dropping

  /** open: the live SSH connections; next and nextWrapper: names not used yet. */
  datatype State = State(wrappers: map<WrapperId, Wrapper>, open: set<ConnId>, next: ConnId, nextWrapper: WrapperId,
                         current: Option<WrapperId>, phase: Phase)

  datatype Event =
    | CloseBegin(w: WrapperId)      // SFTPConn.Close up to its send
    | CloseEnd(w: WrapperId)        // the rest of it
    | NewBegin                      // NewClient: take the mutex and start closing the old wrapper
    | NewEnd(dialled: bool)
    | DropBegin                     // BasicSFTPManager.Close
    | DropEnd
    | Disconnect(c: ConnId)         // the far side goes away
    | SeeShutdown(w: WrapperId)
    | SeeEnd(w: WrapperId)
    | Dial(w: WrapperId)
    | Install(w: WrapperId)

  // ---- The steps ------------------------------------------------------------------------

  predicate CurrentBusy(s: State) {
    s.current.Some? && s.current.value in s.wrappers && s.wrappers[s.current.value].busy
  }

  predicate Enabled(s: State, e: Event) {
    match e
    case CloseBegin(w) => w in s.wrappers && !s.wrappers[w].busy
    case CloseEnd(w) => w in s.wrappers && s.wrappers[w].busy
    case NewBegin => s.phase.Free? && !CurrentBusy(s)
    case NewEnd(_) => s.phase.Dialing? && !CurrentBusy(s)
    case DropBegin => s.phase.Free? && s.current.Some? && !CurrentBusy(s)
    case DropEnd => s.phase.Dropping? && !CurrentBusy(s)
    case Disconnect(_) => true
    case SeeShutdown(w) => w in s.wrappers && s.wrappers[w].monitor.Watching? && s.wrappers[w].token
    case SeeEnd(w) => w in s.wrappers && s.wrappers[w].monitor.Watching? && s.wrappers[w].conn !in s.open
    case Dial(w) => w in s.wrappers && s.wrappers[w].monitor.Reconnecting?
    case Install(w) => w in s.wrappers && s.wrappers[w].monitor.Installing? && !s.wrappers[w].busy
  }

  function Put(s: State, w: WrapperId, x: Wrapper): State {
    s.(wrappers := s.wrappers[w := x])
  }

  /** Close returns an error at once when the wrapper is closed already. */
  function StartClosing(s: State, w: WrapperId): State {
    if w !in s.wrappers || s.wrappers[w].closed then s
    else Put(s, w, s.wrappers[w].(closed := true, token := true, busy := true))
  }

  function Step(s: State, e: Event): State {
    if !Enabled(s, e) then s else
    match e
    case CloseBegin(w) => StartClosing(s, w)
    case CloseEnd(w) => Put(s, w, s.wrappers[w].(busy := false)).(open := s.open - {s.wrappers[w].conn})
    case NewBegin => (if s.current.Some? then StartClosing(s, s.current.value) else s).(phase := Dialing)
    case NewEnd(dialled) =>
      if !dialled then s.(phase := Free)
      else
        var x := Wrapper(s.next, false, false, false, Watching, 0);
        var w := s.nextWrapper;
        State(s.wrappers[w := x], s.open + {s.next}, s.next + 1, w + 1, Some(w), Free)
    case DropBegin => StartClosing(s, s.current.value).(phase := Dropping)
    case DropEnd => s.(current := None, phase := Free)
    case Disconnect(c) => s.(open := s.open - {c})
    case SeeShutdown(w) =>
      Put(s, w, s.wrappers[w].(token := false, monitor := Stopped)).(open := s.open - {s.wrappers[w].conn})
    case SeeEnd(w) => Put(s, w, s.wrappers[w].(monitor := Reconnecting))
    case Dial(w) =>
      Put(s, w, s.wrappers[w].(monitor := Installing(s.next))).(open := s.open + {s.next}, next := s.next + 1)
    case Install(w) =>
      var x := s.wrappers[w];
      Put(s, w, x.(conn := x.monitor.fresh_, monitor := Watching, reconnects := x.reconnects + 1))
  }

  function Run(s: State, es: seq<Event>): State {
    if es == [] then s else Step(Run(s, es[..|es| - 1]), es[|es| - 1])
  }

  const START := State(map[], {}, 0, 0, None, Free)

  // ---- The invariant ------------------------------------------------------------------------

  ghost predicate WrapperInv(s: State, w: WrapperId)
    requires w in s.wrappers
  {
    var x := s.wrappers[w];
    && w < s.nextWrapper && x.conn < s.next
    && (x.token <==> x.closed && !x.monitor.Stopped?)
    && (x.busy ==> x.closed)
    && (x.monitor.Stopped? ==> x.closed && x.conn !in s.open)
    && (x.monitor.Reconnecting? ==> x.conn !in s.open)
    && (x.monitor.Installing? ==> x.conn !in s.open && x.monitor.fresh_ < s.next)
    && (!x.closed ==> s.current == Some(w) && s.phase.Free?)
  }

  /** The monitor of w looks after connection c. */
  predicate Minds(x: Wrapper, c: ConnId) {
    !x.monitor.Stopped? && (x.conn == c || x.monitor == Installing(c))
  }

  ghost predicate Minded(s: State, c: ConnId) {
    c < s.next && exists w :: w in s.wrappers && Minds(s.wrappers[w], c)
  }

  ghost predicate Inv(s: State) {
    && (forall w :: w in s.wrappers ==> WrapperInv(s, w))
    && (forall c :: c in s.open ==> Minded(s, c))
    && (s.current.Some? ==> s.current.value in s.wrappers)
  }

  lemma StepKeepsWrappers(s: State, e: Event)
    requires Inv(s)
    ensures forall w :: w in Step(s, e).wrappers ==> WrapperInv(Step(s, e), w)
  {
    var s' := Step(s, e);
    forall w | w in s'.wrappers ensures WrapperInv(s', w) {
      if w in s.wrappers { assert WrapperInv(s, w); }
    }
  }

  lemma StepKeepsMinded(s: State, e: Event)
    requires Inv(s)
    ensures forall c :: c in Step(s, e).open ==> Minded(Step(s, e), c)
  {
    var s' := Step(s, e);
    forall c | c in s'.open ensures Minded(s', c) {
      if c in s.open {
        var w :| w in s.wrappers && Minds(s.wrappers[w], c);
        assert WrapperInv(s, w);
        assert w in s'.wrappers && Minds(s'.wrappers[w], c);
      } else if e.NewEnd? {
        assert Minds(s'.wrappers[s.nextWrapper], c);
      } else {
        assert e.Dial? && Minds(s'.wrappers[e.w], c);
      }
    }
  }

  lemma {:induction false} RunKeepsInv(es: seq<Event>)
    ensures Inv(Run(START, es))
  {
    if es != [] {
      var s := Run(START, es[..|es| - 1]);
      RunKeepsInv(es[..|es| - 1]);
      StepKeepsWrappers(s, es[|es| - 1]);
      StepKeepsMinded(s, es[|es| - 1]);
    }
  }

  /** Over every interleaving: a Close that is about to send finds the channel empty, so it never
      blocks on it; every wrapper but the manager's current one is closed; a monitor that left
      through shutdown leaves its wrapper without an open connection; and every open connection
      is minded by a running monitor. */
  lemma ClosedConnectionsNeverLeak(es: seq<Event>)
    ensures var s := Run(START, es);
      && (forall w :: w in s.wrappers && !s.wrappers[w].closed ==> !s.wrappers[w].token)
      && (forall w :: w in s.wrappers && s.current != Some(w) ==> s.wrappers[w].closed)
      && (forall w :: w in s.wrappers && s.wrappers[w].monitor.Stopped? ==> s.wrappers[w].conn !in s.open)
      && (forall c :: c in s.open ==> exists w :: w in s.wrappers && Minds(s.wrappers[w], c))
  {
    RunKeepsInv(es);
    var s := Run(START, es);
    forall w | w in s.wrappers ensures WrapperInv(s, w) {}
  }

  /** The events that bring a closed wrapper's monitor home. */
  function Drain(w: WrapperId, m: Monitor): seq<Event> {
    match m
    case Reconnecting => [Dial(w), Install(w), SeeShutdown(w)]
    case Installing(_) => [Install(w), SeeShutdown(w)]
    case Watching => [SeeShutdown(w)]
    case Stopped => []
  }

  lemma Do(s: State, es: seq<Event>, e: Event) returns (es': seq<Event>)
    ensures es' == es + [e] && Run(s, es') == Step(Run(s, es), e)
  {
    es' := es + [e];
    assert es'[..|es|] == es;
  }

  /** A closed wrapper that its monitor will find told to stop. */
  ghost predicate Draining(s: State, w: WrapperId) {
    && w in s.wrappers && s.wrappers[w].closed && !s.wrappers[w].busy
    && (s.wrappers[w].token <==> !s.wrappers[w].monitor.Stopped?)
  }

  lemma DialStep(s: State, w: WrapperId)
    requires Draining(s, w) && s.wrappers[w].monitor.Reconnecting?
    ensures Draining(Step(s, Dial(w)), w) && Step(s, Dial(w)).wrappers[w].monitor.Installing?
  {
  }

  lemma InstallStep(s: State, w: WrapperId)
    requires Draining(s, w) && s.wrappers[w].monitor.Installing?
    ensures Draining(Step(s, Install(w)), w) && Step(s, Install(w)).wrappers[w].monitor.Watching?
  {
  }

  lemma ShutdownStep(s: State, w: WrapperId)
    requires Draining(s, w) && s.wrappers[w].monitor.Watching?
    ensures var s' := Step(s, SeeShutdown(w));
      w in s'.wrappers && s'.wrappers[w].monitor.Stopped? && s'.wrappers[w].conn !in s'.open
  {
  }

  /** From every reachable state the monitor of a closed wrapper can stop by at most three steps
      of its own, even when it was caught reconnecting, and then nothing of the wrapper is open. */
  lemma ClosedWrapperDrains(es: seq<Event>, w: WrapperId)
    requires w in Run(START, es).wrappers && Run(START, es).wrappers[w].closed && !Run(START, es).wrappers[w].busy
    ensures var s := Run(START, es);
      var s' := Run(START, es + Drain(w, s.wrappers[w].monitor));
      w in s'.wrappers && s'.wrappers[w].monitor.Stopped? && s'.wrappers[w].conn !in s'.open
  {
    RunKeepsInv(es);
    var s := Run(START, es);
    assert WrapperInv(s, w);
    hide Run, Inv, Step;
    var m, es' := s.wrappers[w].monitor, es;
    if m.Reconnecting? {
      DialStep(s, w);
      es' := Do(START, es', Dial(w));
    }
    if m.Reconnecting? || m.Installing? {
      InstallStep(Run(START, es'), w);
      es' := Do(START, es', Install(w));
    }
    if !m.Stopped? {
      ShutdownStep(Run(START, es'), w);
      es' := Do(START, es', SeeShutdown(w));
    }
    assert es' == es + Drain(w, m);
  }

  // ---- The manager's methods ------------------------------------------------------------------

  /** The manager's wrapper, if any, closed. */
  function Closing(s: State): State {
    if s.current.None? || s.current.value !in s.wrappers || s.wrappers[s.current.value].closed then s
    else Step(Step(s, CloseBegin(s.current.value)), CloseEnd(s.current.value))
  }

  function Replaced(s: State, dialled: bool): State {
    if dialled then Step(s.(phase := Dialing), NewEnd(true)) else s
  }

  /** Dials by others, one after another. */
  function AfterGap(s: State, gap: seq<bool>): State {
    if gap == [] then s else Replaced(Closing(AfterGap(s, gap[..|gap| - 1])), gap[|gap| - 1])
  }

  class BasicSFTPManager {
    var wrappers: map<WrapperId, Wrapper>
    var open: set<ConnId>
    var next: ConnId
    var nextWrapper: WrapperId
    var current: Option<WrapperId>

    ghost predicate Valid()
      reads this
    {
      Inv(View()) && forall w :: w in wrappers ==> !wrappers[w].busy
    }

    ghost function View(): State
      reads this
    {
      State(wrappers, open, next, nextWrapper, current, Free)
    }

    constructor ()
      ensures Valid() && View() == START
    {
      wrappers, open, next, nextWrapper, current := map[], {}, 0, 0, None;
    }

    /** SFTPConn.Close, undisturbed. It returns what waiting for the end of the connection it has
        just closed returns, or the error of closing twice. */
    method CloseConn(w: WrapperId, waitFails: bool) returns (ok: bool)
      requires Valid() && w in wrappers
      modifies this
      ensures Valid() && ok == (!old(wrappers)[w].closed && !waitFails)
      ensures old(wrappers)[w].closed ==> View() == old(View())
      ensures !old(wrappers)[w].closed ==> View() == Step(Step(old(View()), CloseBegin(w)), CloseEnd(w))
      ensures current == old(current) && next == old(next) && nextWrapper == old(nextWrapper)
      ensures old(wrappers)[w].closed ==> wrappers == old(wrappers) && open == old(open)
      ensures !old(wrappers)[w].closed ==>
        wrappers == old(wrappers)[w := old(wrappers)[w].(closed := true, token := true)]
      ensures !old(wrappers)[w].closed ==> open == old(open) - {old(wrappers)[w].conn}
    {
      if wrappers[w].closed { return false; }
      ghost var s := View();
      StepKeepsWrappers(s, CloseBegin(w));
      StepKeepsMinded(s, CloseBegin(w));
      StepKeepsWrappers(Step(s, CloseBegin(w)), CloseEnd(w));
      StepKeepsMinded(Step(s, CloseBegin(w)), CloseEnd(w));
      open := open - {wrappers[w].conn};
      wrappers := wrappers[w := wrappers[w].(closed := true, token := true)];
      assert View() == Step(Step(s, CloseBegin(w)), CloseEnd(w));
      ok := !waitFails;
    }

    /** NewClient: a failed dial keeps the old wrapper, which is closed by then. */
    method NewClient(dialled: bool, waitFails: bool) returns (conn: Option<WrapperId>)
      requires Valid()
      modifies this
      ensures Valid() && View() == Replaced(Closing(old(View())), dialled)
      ensures old(current).Some? ==> old(current).value in wrappers && wrappers[old(current).value].closed
      ensures next == old(next) + (if dialled then 1 else 0)
      ensures nextWrapper == old(nextWrapper) + (if dialled then 1 else 0)
      ensures old(current).None? || old(wrappers)[old(current).value].closed ==>
        var dialling := Wrapper(old(next), false, false, false, Watching, 0);
        && wrappers == (if dialled then old(wrappers)[old(nextWrapper) := dialling] else old(wrappers))
        && open == old(open) + (if dialled then {old(next)} else {})
      ensures old(current).Some? && !old(wrappers)[old(current).value].closed ==>
        var dialling, was := Wrapper(old(next), false, false, false, Watching, 0), old(wrappers)[old(current).value];
        var closed := old(wrappers)[old(current).value := was.(closed := true, token := true)];
        && wrappers == (if dialled then closed[old(nextWrapper) := dialling] else closed)
        && open == old(open) - {was.conn} + (if dialled then {old(next)} else {})
      ensures dialled ==> conn == current == Some(old(nextWrapper))
      ensures dialled ==> conn.value in wrappers && !wrappers[conn.value].closed && wrappers[conn.value].conn in open
      ensures !dialled ==> conn == None && current == old(current)
    {
      if current.Some? {
        var ok := CloseConn(current.value, waitFails);
      }
      if !dialled { return None; }
      ghost var s := View().(phase := Dialing);
      Opened(View());
      StepKeepsWrappers(s, NewEnd(true));
      StepKeepsMinded(s, NewEnd(true));
      wrappers := wrappers[nextWrapper := Wrapper(next, false, false, false, Watching, 0)];
      open := open + {next};
      current := Some(nextWrapper);
      conn := current;
      next, nextWrapper := next + 1, nextWrapper + 1;
      assert View() == Step(s, NewEnd(true));
    }

    /** The current wrapper as it is, closed or not; a new one only when there is none. Between the
        look and the dial any number of other callers may have dialled, with the outcomes in gap. */
    method GetConnection(dialled: bool, gap: seq<bool>, waitFails: bool) returns (conn: Option<WrapperId>)
      requires Valid()
      modifies this
      ensures Valid()
      ensures old(current).Some? ==> conn == old(current) && View() == old(View())
      ensures old(current).None? ==> View() == Replaced(Closing(AfterGap(old(View()), gap)), dialled)
      ensures old(current).None? ==> conn == if dialled then current else None
      ensures old(current).None? && dialled ==>
        conn.Some? && conn.value in wrappers && wrappers[conn.value].conn in open
      ensures old(current).None? ==> forall w :: w in wrappers && conn != Some(w) ==> wrappers[w].closed
    {
      if current.Some? { return current; }
      for i := 0 to |gap|
        invariant Valid() && View() == AfterGap(old(View()), gap[..i])
      {
        assert gap[..i + 1][..i] == gap[..i];
        var other := NewClient(gap[i], waitFails);
      }
      assert gap[..|gap|] == gap;
      conn := NewClient(dialled, waitFails);
      forall w | w in wrappers && conn != Some(w) ensures wrappers[w].closed { assert WrapperInv(View(), w); }
    }

    method Close(waitFails: bool) returns (ok: bool)
      requires Valid()
      modifies this
      ensures Valid() && View() == Closing(old(View())).(current := None)
      ensures ok <==> old(current).None? || (!old(wrappers)[old(current).value].closed && !waitFails)
      ensures forall w :: w in wrappers ==> wrappers[w].closed
      ensures wrappers.Keys == old(wrappers).Keys && next == old(next) && nextWrapper == old(nextWrapper)
      ensures open == if old(current).Some? && !old(wrappers)[old(current).value].closed
                      then old(open) - {old(wrappers)[old(current).value].conn} else old(open)
    {
      ok := true;
      if current.Some? {
        ok := CloseConn(current.value, waitFails);
        Opened(View());
        current := None;
      }
      forall w | w in wrappers ensures wrappers[w].closed { assert WrapperInv(View(), w); }
    }
  }

  /** With the current wrapper closed, the manager may be dialling or dropping it. */
  lemma Opened(s: State)
    requires Inv(s) && s.phase.Free? && (s.current.Some? ==> s.wrappers[s.current.value].closed)
    ensures Inv(s.(phase := Dialing)) && Inv(s.(current := None))
  {
    forall w | w in s.wrappers ensures WrapperInv(s.(phase := Dialing), w) && WrapperInv(s.(current := None), w) {
      assert WrapperInv(s, w);
    }
    forall c | c in s.open ensures Minded(s.(phase := Dialing), c) && Minded(s.(current := None), c) {
      var w :| w in s.wrappers && Minds(s.wrappers[w], c);
    }
  }

  // ---- When the manager hands out a closed connection ------------------------------------------

  /** Since the manager last got a new wrapper, a Close was called on it, through the manager or
      through the connection it had handed out, or a replacement was begun. */
  predicate Disowned(es: seq<Event>) {
    if es == [] then false
    else
      var before, e := Run(START, es[..|es| - 1]), es[|es| - 1];
      if !Enabled(before, e) then Disowned(es[..|es| - 1])
      else match e
        case NewEnd(dialled) => !dialled && Disowned(es[..|es| - 1])
        case CloseBegin(w) => before.current == Some(w) || Disowned(es[..|es| - 1])
        case NewBegin => true
        case _ => Disowned(es[..|es| - 1])
  }

  /** The current wrapper is closed exactly when it was disowned, or while it is being dropped. */
  ghost predicate ClosedWhenDisowned(s: State, disowned: bool) {
    s.current.Some? ==>
      && s.current.value in s.wrappers
      && var closed := s.wrappers[s.current.value].closed;
      if s.phase.Free? then closed <==> disowned else closed && (s.phase.Dialing? ==> disowned)
  }

  /** Only a close, a replacement or a drop touches the current wrapper's flag. */
  lemma CurrentAfterStep(s: State, e: Event)
    requires Inv(s) && Enabled(s, e) && s.current.Some? && !e.NewEnd? && !e.DropEnd?
    ensures var s', w := Step(s, e), s.current.value;
      && s'.current == s.current && w in s.wrappers && w in s'.wrappers
      && (s'.wrappers[w].closed <==> s.wrappers[w].closed || e == CloseBegin(w) || e.NewBegin? || e.DropBegin?)
      && s'.phase == (if e.NewBegin? then Dialing else if e.DropBegin? then Dropping else s.phase)
  {
  }

  lemma {:induction false} RunKeepsDisowned(es: seq<Event>)
    ensures ClosedWhenDisowned(Run(START, es), Disowned(es))
  {
    if es != [] {
      var init, e := es[..|es| - 1], es[|es| - 1];
      var s := Run(START, init);
      RunKeepsDisowned(init);
      RunKeepsInv(init);
      StepKeepsDisowned(s, e, Disowned(init), Disowned(es));
    }
  }

  lemma StepKeepsDisowned(s: State, e: Event, before: bool, after: bool)
    requires Inv(s) && ClosedWhenDisowned(s, before)
    requires after ==
      if !Enabled(s, e) then before
      else match e
        case NewEnd(dialled) => !dialled && before
        case CloseBegin(w) => s.current == Some(w) || before
        case NewBegin => true
        case _ => before
    ensures ClosedWhenDisowned(Step(s, e), after)
  {
    if Enabled(s, e) && s.current.Some? && !e.NewEnd? && !e.DropEnd? {
      assert e.DropBegin? || e.NewBegin? ==> s.phase.Free?;
      CurrentAfterStep(s, e);
      hide Step, Enabled, Inv;
    }
  }

  /** In every reachable state in which the manager's mutex is free, the wrapper that
      GetConnection hands out is closed if and only if, since it was made, it was closed or a
      replacement was begun, which then failed. An open one has a running monitor, so it is
      connected or about to be. */
  lemma HandsOutClosedIff(es: seq<Event>)
    requires Run(START, es).phase.Free? && Run(START, es).current.Some?
    ensures var s := Run(START, es);
      var w := s.current.value;
      && w in s.wrappers
      && (s.wrappers[w].closed <==> Disowned(es))
      && (!Disowned(es) ==> !s.wrappers[w].monitor.Stopped?)
  {
    RunKeepsDisowned(es);
    RunKeepsInv(es);
    assert WrapperInv(Run(START, es), Run(START, es).current.value);
  }

  /** Two callers that both find no connection: the second one's dial closes the wrapper that the
      first was given. */
  lemma RacingCallersCloseEachOther(es: seq<Event>)
    requires Run(START, es).phase.Free? && Run(START, es).current.None?
    ensures var s := Run(START, es);
      var first := Step(Step(s, NewBegin), NewEnd(true));
      var second := Step(Step(Step(first, NewBegin), CloseEnd(s.nextWrapper)), NewEnd(true));
      && first.current == Some(s.nextWrapper) && !first.wrappers[s.nextWrapper].closed
      && second.current == Some(s.nextWrapper + 1) && second.wrappers[s.nextWrapper].closed
  {
  }

  // ---- A replacement that fails --------------------------------------------------------------

  /** The manager holds a closed wrapper and is not replacing or dropping it. */
  ghost predicate StuckOn(s: State, w: WrapperId) {
    s.current == Some(w) && s.phase.Free? && w in s.wrappers && s.wrappers[w].closed
  }

  lemma {:induction false} StaysStuck(s: State, w: WrapperId, es: seq<Event>)
    requires StuckOn(s, w) && forall e :: e in es ==> !e.NewBegin? && !e.DropBegin?
    ensures StuckOn(Run(s, es), w)
  {
    if es != [] {
      StaysStuck(s, w, es[..|es| - 1]);
      assert es[|es| - 1] in es;
    }
  }

  /** NewClient closes the old wrapper before it dials. When the dial fails the manager is left
      with the closed wrapper, and whatever connections and monitors then do, GetConnection,
      which answers with the current wrapper, hands it out until someone calls NewClient or
      Close again. */
  lemma FailedReplacementSticks(es: seq<Event>, w: WrapperId, later: seq<Event>)
    requires var s := Run(START, es);
      s.phase.Free? && s.current == Some(w) && w in s.wrappers && !s.wrappers[w].closed && !s.wrappers[w].busy
    requires forall e :: e in later ==> !e.NewBegin? && !e.DropBegin?
    ensures StuckOn(Run(Step(Step(Step(Run(START, es), NewBegin), CloseEnd(w)), NewEnd(false)), later), w)
  {
    StaysStuck(Step(Step(Step(Run(START, es), NewBegin), CloseEnd(w)), NewEnd(false)), w, later);
  }

  /** The reconnections of a wrapper in a run. */
  function Reconnections(es: seq<Event>, w: WrapperId): nat {
    if es == [] then 0
    else
      var e := es[|es| - 1];
      Reconnections(es[..|es| - 1], w) + (if e == Install(w) && Enabled(Run(START, es[..|es| - 1]), e) then 1 else 0)
  }

  lemma StepCountsReconnects(s: State, e: Event, w: WrapperId)
    requires Inv(s) && w in Step(s, e).wrappers
    ensures w !in s.wrappers ==> Step(s, e).wrappers[w].reconnects == 0
    ensures var more := if e == Install(w) && Enabled(s, e) then 1 else 0;
      w in s.wrappers ==> Step(s, e).wrappers[w].reconnects == s.wrappers[w].reconnects + more
  {
    if w in s.wrappers { assert WrapperInv(s, w); }
  }

  /** GetReconnectCount tells how often the wrapper's monitor has installed a new connection. */
  lemma {:induction false} ReconnectsAreCounted(es: seq<Event>, w: WrapperId)
    ensures w in Run(START, es).wrappers ==> Run(START, es).wrappers[w].reconnects == Reconnections(es, w)
    ensures w !in Run(START, es).wrappers ==> Reconnections(es, w) == 0
  {
    if es != [] {
      var s, e := Run(START, es[..|es| - 1]), es[|es| - 1];
      ReconnectsAreCounted(es[..|es| - 1], w);
      RunKeepsInv(es[..|es| - 1]);
      if w in Step(s, e).wrappers { StepCountsReconnects(s, e, w); } else { WrappersStay(s, e, w); }
      hide Step, Inv;
    }
  }

  lemma WrappersStay(s: State, e: Event, w: WrapperId)
    requires w !in Step(s, e).wrappers
    ensures w !in s.wrappers && !(e == Install(w) && Enabled(s, e))
  {
  }
}
