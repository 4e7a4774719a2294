/**
 * The start-up sequence as an event trace: the reminder service is started
 * while the module loads, then the store connection is attempted; only a
 * successful connection followed by a successful `listen` call leads to
 * listening. A failed connection, or a `listen` call that throws (the same
 * `try` block covers both), exits with 1. Both outcomes are parameters; no
 * I/O is modelled.
 */
module Bootstrap {
  import opened Js

  datatype Event =
    | ReminderStart
    | ConnectAttempt
    | Connected
    | ConnectFailed
    | Listen
    | Exit(code: int)

  datatype Phase = Init | Loaded | Connecting | StoreConnected | StoreFailed | Listening | Terminated

  /** Steps still to go from a phase; every step lowers it. */
  function Rank(p: Phase): (r: nat) {
    match p
    case Init => 5
    case Loaded => 4
    case Connecting => 3
    case StoreConnected => 2
    case StoreFailed => 1
    case Listening => 0
    case Terminated => 0
  }

  predicate Final(p: Phase) {
    p == Listening || p == Terminated
  }

  /** One transition: the event emitted and the phase reached, or None in a final phase. */
  function Step(p: Phase, connectOk: bool, listenOk: bool): (r: Option<(Event, Phase)>)
    ensures r.None? <==> Final(p)
    ensures r.Some? ==> Rank(r.value.1) < Rank(p)
  {
    match p
    case Init => Some((ReminderStart, Loaded))
    case Loaded => Some((ConnectAttempt, Connecting))
    case Connecting =>
      if connectOk then Some((Connected, StoreConnected)) else Some((ConnectFailed, StoreFailed))
    case StoreConnected =>
      if listenOk then Some((Listen, Listening)) else Some((Exit(1), Terminated))
    case StoreFailed => Some((Exit(1), Terminated))
    case Listening => None
    case Terminated => None
  }

  /** The events emitted from phase `p` until a final phase is reached. */
  function Run(p: Phase, connectOk: bool, listenOk: bool): (t: seq<Event>)
    ensures |t| <= Rank(p)
    ensures t == [] <==> Final(p)
    ensures t != [] ==> t[|t| - 1] == Listen || t[|t| - 1] == Exit(1)
    ensures Listen in t ==> listenOk
    // A Listen without a successful connection can only come from a run
    // that starts after the connection step, in StoreConnected.
    ensures Listen in t && !connectOk ==> p == StoreConnected
    decreases Rank(p)
  {
    match Step(p, connectOk, listenOk)
    case None => []
    case Some((e, q)) => [e] + Run(q, connectOk, listenOk)
  }

  /** The whole start-up trace for given connection and listen outcomes. */
  function Boot(connectOk: bool, listenOk: bool): (t: seq<Event>)
    ensures |t| == 4
    ensures t[0] == ReminderStart && t[1] == ConnectAttempt
    ensures t[2] == (if connectOk then Connected else ConnectFailed)
    ensures t[3] == (if connectOk && listenOk then Listen else Exit(1))
  {
    Run(Init, connectOk, listenOk)
  }

  /** Every occurrence of `b` in `t` has an `a` somewhere before it. */
  predicate Precedes(t: seq<Event>, a: Event, b: Event) {
    forall j :: 0 <= j < |t| && t[j] == b ==> exists i :: 0 <= i < j && t[i] == a
  }

  predicate ExitsWith(t: seq<Event>, code: int) {
    |t| > 0 && t[|t| - 1] == Exit(code)
  }

  /**
   * The reminder service starts before the connection attempt whatever its
   * outcome; the server listens exactly when the connection and the listen
   * call both succeeded, and then only after the connection; any failure
   * ends the trace with exit code 1 and no listening.
   */
  lemma BootOrder(connectOk: bool, listenOk: bool)
    ensures var t := Boot(connectOk, listenOk);
      && ConnectAttempt in t
      && Precedes(t, ReminderStart, ConnectAttempt)
      && Precedes(t, Connected, Listen)
      && (Listen in t <==> connectOk && listenOk)
      && (!(connectOk && listenOk) ==> ExitsWith(t, 1) && Listen !in t)
      && (connectOk && listenOk ==> forall c :: Exit(c) !in t)
  {
  }
}
