/**
  * The mean-reversion strategy's candle handling: which candle events are
  * considered, the de-duplication of closed candles by their canonical id,
  * the bounded price history, the flat/long/short position machine driven by
  * a z-score, the entry-only guards (breaker, cooldown, signal frequency) and
  * the rule that the position moves only when the order queue accepts the
  * signal. The z-score, the canonical candle id, the clocks and the queue's
  * answer are inputs.
  */
module MeanReversion {
  import opened Wrappers
  import opened PyValues
  import opened Templates

  /** The bar interval the strategy subscribes to (`self.interval`). */
  const Interval: string := "5m"
  /** `_log_skip_reason`'s default `dedupe_interval`. */
  const SkipDedupeSeconds: real := 5.0

  const IntrabarMessage: string := "Ignoring intrabar candle update for mean reversion"
  const IntervalMessage: string := "Skipping candle with unexpected interval for mean reversion"
  const BreakerMessage: string := "Mean reversion entry suppressed by breaker"
  const CooldownMessage: string := "Mean reversion entry suppressed by cooldown"
  const FrequencyMessage: string := "Mean reversion entry suppressed by frequency"

  const EntryReason: string := "mean-reversion-entry"
  const ExitReason: string := "mean-reversion-exit"

  /** The strategy's parameters: "symbol", "lookback", "entry_zscore",
      "exit_zscore" and "order_quantity" as stored on the instance. */
  datatype Parameters = Parameters(symbol: Dyn, lookback: nat, entryZ: real, exitZ: real, orderQuantity: Dyn)

  /** The base-class state the entry guards read: the loss breaker, the
      cooldown setting and its deadline, the signal-frequency setting and the
      wall-clock time of the last signal (None before the first). */
  datatype Guards = Guards(breakerTripped: bool, cooldownSeconds: real, cooldownUntil: real,
                           frequencySeconds: real, lastSignalWall: Option<real>)

  // ---------------------------------------------------------------------------
  // Event screening

  /** Why a candle event went no further. */
  datatype Skip = NotACandle | Intrabar | UnexpectedInterval | NoPrice | DuplicateCandle | NonNumericPrice

  /** The screening of an event before its candle id is looked at: a reason
      to skip it, or the raw price it carries. */
  datatype Screened = Skipped(reason: Skip) | Priced(price: Dyn)

  /** The checks at the top of `_process_candle_event`, in order: the event
      type must be absent or "candle", the candle closed, its interval (when
      given) the subscribed one, and it must carry a "close" or a "price". */
  function Screen(candle: map<string, Dyn>): (r: Screened)
    ensures r.Priced? <==>
      Get(candle, "type") in {DNone, DStr("candle")} && Truthy(Get(candle, "is_closed"))
      && !(Truthy(Get(candle, "interval")) && Get(candle, "interval") != DStr(Interval))
      && (Get(candle, "close") != DNone || Get(candle, "price") != DNone)
    ensures r.Priced? ==> r.price != DNone
    ensures r.Priced? && Get(candle, "close") != DNone ==> r.price == Get(candle, "close")
  {
    if Get(candle, "type") !in {DNone, DStr("candle")} then Skipped(NotACandle)
    else if !Truthy(Get(candle, "is_closed")) then Skipped(Intrabar)
    else if Truthy(Get(candle, "interval")) && Get(candle, "interval") != DStr(Interval) then Skipped(UnexpectedInterval)
    else
      var price := if Get(candle, "close") != DNone then Get(candle, "close") else Get(candle, "price");
      if price == DNone then Skipped(NoPrice) else Priced(price)
  }

  // ---------------------------------------------------------------------------
  // History

  /** `deque(history, maxlen=n)`: the newest `n` prices. */
  function KeepLast(history: seq<real>, n: nat): (r: seq<real>)
    ensures |r| == if |history| <= n then |history| else n
    ensures r == history[|history| - |r|..]
  {
    if |history| <= n then history else history[|history| - n..]
  }

  // ---------------------------------------------------------------------------
  // Position machine

  /** A signal the position machine wants sent: its side, the position once
      it is queued, and whether it opens a position (an entry) or closes one
      (an exit). */
  datatype Intent = Intent(side: string, newPosition: int, entry: bool)

  /** The flat/long/short transitions on a z-score. */
  function Transition(position: int, z: real, entryZ: real, exitZ: real): (r: Option<Intent>)
    // entries happen only when flat and exits only when holding a position
    ensures r.Some? ==> (r.value.entry <==> position == 0)
    // an exit flattens, an entry opens one contract's worth of direction
    ensures r.Some? && !r.value.entry ==> r.value.newPosition == 0
    ensures r.Some? && r.value.entry ==> r.value.newPosition == (if r.value.side == "SELL" then -1 else 1)
    ensures r.Some? ==> r.value.side in {"BUY", "SELL"}
    // mean reversion: sell when the price is far above the mean, buy when far below
    ensures r.Some? && r.value.side == "SELL" ==> z >= (if position == 0 then entryZ else exitZ)
    ensures r.Some? && r.value.side == "BUY" ==> z <= -(if position == 0 then entryZ else exitZ)
    // a long position is only ever sold and a short one only ever bought
    ensures r.Some? && position > 0 ==> r.value.side == "SELL"
    ensures r.Some? && position < 0 ==> r.value.side == "BUY"
  {
    if position == 0 then
      if z >= entryZ then Some(Intent("SELL", -1, true))
      else if z <= -entryZ then Some(Intent("BUY", 1, true))
      else None
    else if position > 0 && z >= exitZ then Some(Intent("SELL", 0, false))
    else if position < 0 && z <= -exitZ then Some(Intent("BUY", 0, false))
    else None
  }

  /** No signal exactly when the z-score is inside the band of the current
      position: strictly between the entry thresholds when flat, below the
      exit threshold when long, above its negation when short. */
  lemma {:induction false} TransitionHoldsIff(position: int, z: real, entryZ: real, exitZ: real)
    ensures Transition(position, z, entryZ, exitZ).None? <==>
      (position == 0 && -entryZ < z < entryZ) || (position > 0 && z < exitZ) || (position < 0 && z > -exitZ)
  {
  }

  /** Starting flat, positions stay within one contract's direction: the
      machine never flips from long to short without passing through flat. */
  lemma TransitionKeepsUnitPosition(position: int, z: real, entryZ: real, exitZ: real)
    requires -1 <= position <= 1
    ensures var r := Transition(position, z, entryZ, exitZ);
      r.Some? ==> -1 <= r.value.newPosition <= 1 && r.value.newPosition * position <= 0
  {
  }

  // ---------------------------------------------------------------------------
  // Entry guards

  /** Which entry guard fires: the breaker, then an active cooldown, then the
      frequency guard (only once a signal has been sent). */
  datatype Guard = Breaker | Cooldown | Frequency

  function EntryGuard(g: Guards, now: real, nowWall: real): (r: Option<Guard>)
    ensures r.None? <==>
      !g.breakerTripped
      && !(g.cooldownSeconds > 0.0 && now < g.cooldownUntil)
      && !(g.frequencySeconds > 0.0 && g.lastSignalWall.Some? && nowWall - g.lastSignalWall.value < g.frequencySeconds)
    ensures r == Some(Breaker) <==> g.breakerTripped
  {
    if g.breakerTripped then Some(Breaker)
    else if Max(0.0, g.cooldownSeconds) > 0.0 && now < g.cooldownUntil then Some(Cooldown)
    else
      var frequency := Max(0.0, g.frequencySeconds);
      if frequency > 0.0 && g.lastSignalWall.Some? && nowWall - g.lastSignalWall.value < frequency then Some(Frequency)
      else None
  }

  function GuardMessage(guard: Guard): string {
    match guard
    case Breaker => BreakerMessage
    case Cooldown => CooldownMessage
    case Frequency => FrequencyMessage
  }

  // ---------------------------------------------------------------------------
  // Signals

  /** `build_metadata()`: the z-score, the price and the symbol, plus the raw
      requested quantity and the discarded fraction when a fraction was
      dropped. */
  function EntryMetadata(z: real, price: real, symbol: Dyn, rawQuantity: Dyn, fractional: real): (m: map<string, Dyn>)
    ensures "zscore" in m && m["zscore"] == DFloat(z) && "price" in m && m["price"] == DFloat(price)
    ensures FractionalKey in m <==> fractional > 0.0
    ensures "quantity_requested_raw" in m <==> fractional > 0.0 && ToFloat(rawQuantity).Finite?
    ensures "symbol" in m && m["symbol"] == (if Truthy(symbol) then symbol else DStr(""))
    // nothing else is put in
    ensures m.Keys <= {"zscore", "price", "symbol", "quantity_requested_raw", FractionalKey}
  {
    var m := map["zscore" := DFloat(z), "price" := DFloat(price), "symbol" := if Truthy(symbol) then symbol else DStr("")];
    var m := if ToFloat(rawQuantity).Finite? && fractional > 0.0
      then m["quantity_requested_raw" := DFloat(ToFloat(rawQuantity).x)] else m;
    if fractional > 0.0 then m[FractionalKey := DFloat(fractional)] else m
  }

  /** What one candle event led to. */
  datatype CandleOutcome =
    | Ignored(reason: Skip)
    | Replayed
    | WarmingUp
    | NoQuantity
    | NoSignal
    | Suppressed(guard: Guard)
    | QueueRefused(signal: StrategySignal)
    | Queued(signal: StrategySignal)

  /** Whether `_log_skip_reason` writes a message: not when the same message
      was written less than `interval` seconds ago. */
  predicate SkipLogDue(lastMessage: Option<string>, lastLoggedAt: real, message: string, now: real, interval: real) {
    !(lastMessage == Some(message) && now - lastLoggedAt < interval)
  }

  /** What `_log_skip_reason` keeps: the last message written, the monotonic
      time it was written at, and the messages written so far, oldest first. */
  datatype SkipState = SkipState(lastMessage: Option<string>, loggedAt: real, log: seq<string>)

  /** The skip state after `_log_skip_reason(message)` at monotonic time
      `now`: the message is written and remembered when due, and nothing
      changes otherwise. */
  function AfterSkipLog(s: SkipState, message: string, now: real, interval: real): SkipState {
    if SkipLogDue(s.lastMessage, s.loggedAt, message, now, interval)
    then SkipState(Some(message), now, s.log + [message])
    else s
  }

  /** Two successive `_log_skip_reason` calls: once a message is written at
      `now`, writing it again at `later` changes nothing exactly when less
      than `interval` seconds have passed, and a different message is always
      written. */
  lemma SkipLogDedupes(s: SkipState, message: string, other: string, now: real, later: real, interval: real)
    requires SkipLogDue(s.lastMessage, s.loggedAt, message, now, interval)
    ensures AfterSkipLog(s, message, now, interval).log == s.log + [message]
    ensures var s1 := AfterSkipLog(s, message, now, interval);
      AfterSkipLog(s1, message, later, interval) == s1 <==> later - now < interval
    ensures var s1 := AfterSkipLog(s, message, now, interval);
      other != message ==> AfterSkipLog(s1, other, later, interval).log == s1.log + [other]
  {
  }

  // ---------------------------------------------------------------------------
  // The strategy

  class MeanReversionStrategy {
    const parameters: Parameters
    var history: seq<real>
    /** The history deque's `maxlen`. */
    var historyMaxLen: nat
    var position: int
    var lastClosedCandleId: Option<string>
    var lastSkipMessage: Option<string>
    var lastSkipLoggedAt: real
    /** The skip messages written to the log, oldest first. */
    var skipLog: seq<string>
    /** The `as_dict()` payloads handed to `queue_order`, oldest first. */
    var submitted: seq<map<string, Dyn>>

    ghost predicate Valid()
      reads this
    {
      |history| <= historyMaxLen && -1 <= position <= 1
    }

    /** The skip-log fields as one value. */
    ghost function SkipRecord(): SkipState
      reads this`lastSkipMessage, this`lastSkipLoggedAt, this`skipLog
    {
      SkipState(lastSkipMessage, lastSkipLoggedAt, skipLog)
    }

    /** `__post_init__`: an empty history bounded by the lookback, flat, no
        candle seen and nothing logged. */
    constructor (parameters: Parameters)
      ensures Valid()
      ensures this.parameters == parameters && history == [] && historyMaxLen == parameters.lookback
      ensures position == 0 && lastClosedCandleId.None?
      ensures lastSkipMessage.None? && lastSkipLoggedAt == 0.0 && skipLog == [] && submitted == []
    {
      this.parameters := parameters;
      history := [];
      historyMaxLen := parameters.lookback;
      position := 0;
      lastClosedCandleId := None;
      lastSkipMessage := None;
      lastSkipLoggedAt := 0.0;
      skipLog := [];
      submitted := [];
    }

    /** `_log_skip_reason(message)` at monotonic time `now`. */
    method LogSkipReason(message: string, now: real, dedupeInterval: real)
      modifies this`lastSkipMessage, this`lastSkipLoggedAt, this`skipLog
      ensures SkipRecord() == AfterSkipLog(old(SkipRecord()), message, now, dedupeInterval)
    {
      if lastSkipMessage == Some(message) && now - lastSkipLoggedAt < dedupeInterval {
        return;
      }
      lastSkipMessage := Some(message);
      lastSkipLoggedAt := now;
      skipLog := skipLog + [message];
    }

    /** `_process_candle_event(candle)`. The canonical candle id, the replay
        flag, the z-score the history gives, the clocks, the guards' state and
        the queue's answer are inputs: `now` and `nowWall` are the guards'
        monotonic and wall-clock readings, and `logNow` is the monotonic
        reading `_log_skip_reason` takes for itself. */
    method ProcessCandle(candle: map<string, Dyn>, candleId: Option<string>, replay: bool, z: real,
                         guards: Guards, now: real, nowWall: real, logNow: real, queueAccepts: bool)
      returns (outcome: CandleOutcome)
      requires Valid()
      modifies this`history, this`historyMaxLen, this`position, this`lastClosedCandleId,
               this`lastSkipMessage, this`lastSkipLoggedAt, this`skipLog, this`submitted
      ensures Valid()
      // screened-out events touch neither the history nor the position
      ensures Screen(candle).Skipped? ==>
        outcome == Ignored(Screen(candle).reason) && history == old(history) && historyMaxLen == old(historyMaxLen)
        && position == old(position) && lastClosedCandleId == old(lastClosedCandleId) && submitted == old(submitted)
      // intrabar and off-interval candles go through `_log_skip_reason`; the other skips log nothing
      ensures Screen(candle) == Skipped(Intrabar) ==>
        SkipRecord() == AfterSkipLog(old(SkipRecord()), IntrabarMessage, logNow, SkipDedupeSeconds)
      ensures Screen(candle) == Skipped(UnexpectedInterval) ==>
        SkipRecord() == AfterSkipLog(old(SkipRecord()), IntervalMessage, logNow, SkipDedupeSeconds)
      ensures Screen(candle) in {Skipped(NotACandle), Skipped(NoPrice)} ==> SkipRecord() == old(SkipRecord())
      // the others go through the closed-candle handling with the price found
      ensures Screen(candle).Priced? ==>
        ClosedCandleHandled(old(history), old(historyMaxLen), old(position), old(lastClosedCandleId), old(submitted),
                            old(SkipRecord()), Screen(candle).price, candleId, replay, z, guards, now, nowWall,
                            logNow, queueAccepts, outcome)
    {
      if Get(candle, "type") !in {DNone, DStr("candle")} {
        return Ignored(NotACandle);
      }
      if !Truthy(Get(candle, "is_closed")) {
        LogSkipReason(IntrabarMessage, logNow, SkipDedupeSeconds);
        return Ignored(Intrabar);
      }
      var interval := Get(candle, "interval");
      if Truthy(interval) && interval != DStr(Interval) {
        LogSkipReason(IntervalMessage, logNow, SkipDedupeSeconds);
        return Ignored(UnexpectedInterval);
      }
      var price := Get(candle, "close");
      if price == DNone {
        price := Get(candle, "price");
      }
      if price == DNone {
        return Ignored(NoPrice);
      }
      assert Screen(candle) == Priced(price);
      outcome := ProcessClosedCandle(price, candleId, replay, z, guards, now, nowWall, logNow, queueAccepts);
    }

    /** What the handling of a closed candle carrying `price` leaves, from the
        state before it: a redelivered candle id is ignored, the id is
        remembered, an accepted price goes into the history bounded by the
        lookback, replayed and too-early candles stop there, and the position
        moves only for a queued signal, to where the position machine says;
        only a suppressed entry writes to the skip log. */
    ghost predicate ClosedCandleHandled(history0: seq<real>, maxLen0: nat, position0: int,
                                        lastId0: Option<string>, submitted0: seq<map<string, Dyn>>,
                                        skip0: SkipState, price: Dyn, candleId: Option<string>, replay: bool,
                                        z: real, guards: Guards, now: real, nowWall: real, logNow: real,
                                        queueAccepts: bool, outcome: CandleOutcome)
      reads this
    {
      (candleId.Some? && lastId0 == candleId ==> outcome == Ignored(DuplicateCandle))
      // a closed candle is ignored only as a redelivery or for a price that is not a finite number
      && (outcome.Ignored? ==>
            (outcome == Ignored(DuplicateCandle) && candleId.Some? && lastId0 == candleId)
            || (outcome == Ignored(NonNumericPrice) && !ToFloat(price).Finite?))
      && (candleId.Some? ==> lastClosedCandleId == candleId)
      && (candleId.None? ==> lastClosedCandleId == lastId0)
      && (outcome.Ignored? ==>
            history == history0 && historyMaxLen == maxLen0 && position == position0 && submitted == submitted0)
      && (!outcome.Ignored? ==>
            ToFloat(price).Finite? && historyMaxLen == parameters.lookback
            && history == DequeAppend(KeepLast(history0, parameters.lookback), ToFloat(price).x, parameters.lookback))
      && (outcome == Replayed <==> !outcome.Ignored? && replay)
      && (outcome == WarmingUp <==> !outcome.Ignored? && !replay && |history| < historyMaxLen)
      && (!outcome.Queued? ==> position == position0)
      && (outcome.Queued? ==>
            var intent := Transition(position0, z, parameters.entryZ, parameters.exitZ);
            intent.Some? && position == intent.value.newPosition)
      && (outcome == Replayed || outcome == WarmingUp ==> submitted == submitted0)
      && (!outcome.Suppressed? ==> SkipRecord() == skip0)
      // a full history goes on to the decision
      && (!outcome.Ignored? && !replay && |history| >= historyMaxLen ==>
            Decided(position0, submitted0, skip0, z, guards, now, nowWall, logNow, queueAccepts, outcome))
    }

    /** `_process_candle_event` from the candle id on, for a candle that
        passed the screening with `price`. */
    method ProcessClosedCandle(price: Dyn, candleId: Option<string>, replay: bool, z: real,
                               guards: Guards, now: real, nowWall: real, logNow: real, queueAccepts: bool)
      returns (outcome: CandleOutcome)
      requires Valid()
      modifies this`history, this`historyMaxLen, this`position, this`lastClosedCandleId,
               this`lastSkipMessage, this`lastSkipLoggedAt, this`skipLog, this`submitted
      ensures Valid()
      ensures ClosedCandleHandled(old(history), old(historyMaxLen), old(position), old(lastClosedCandleId),
                                  old(submitted), old(SkipRecord()), price, candleId, replay, z, guards, now, nowWall,
                                  logNow, queueAccepts, outcome)
    {
      if candleId.Some? {
        if lastClosedCandleId == candleId {
          return Ignored(DuplicateCandle);
        }
        lastClosedCandleId := candleId;
      }
      var converted := ToFloat(price);
      if !converted.Finite? {
        return Ignored(NonNumericPrice);
      }
      RecordPrice(converted.x);
      if replay {
        return Replayed;
      }
      if |history| < historyMaxLen {
        return WarmingUp;
      }
      outcome := Decide(z, converted.x, guards, now, nowWall, logNow, queueAccepts);
    }

    /** Resize the history deque to the lookback when it changed, then append
        the price. */
    method RecordPrice(price: real)
      modifies this`history, this`historyMaxLen
      ensures historyMaxLen == parameters.lookback
      ensures history == DequeAppend(KeepLast(old(history), parameters.lookback), price, parameters.lookback)
      ensures |history| <= historyMaxLen
    {
      var lookback := parameters.lookback;
      if historyMaxLen != lookback {
        history := KeepLast(history, lookback);
        historyMaxLen := lookback;
      }
      history := DequeAppend(history, price, historyMaxLen);
    }

    /** What the decision on a full history leaves, from the position and the
        submissions before it: no order quantity, no signal, an entry
        suppressed by a guard, which logs the guard's message as
        `_log_skip_reason` does, or a signal handed to the queue, which moves
        the position only when it accepts the signal. */
    ghost predicate Decided(position0: int, submitted0: seq<map<string, Dyn>>, skip0: SkipState, z: real,
                            guards: Guards, now: real, nowWall: real, logNow: real, queueAccepts: bool,
                            outcome: CandleOutcome)
      reads this`position, this`submitted, this`lastSkipMessage, this`lastSkipLoggedAt, this`skipLog
    {
      (outcome in {NoQuantity, NoSignal} || outcome.Suppressed? || outcome.QueueRefused? || outcome.Queued?)
      && (outcome == NoQuantity <==> CoerceOrderQuantityComponents(parameters.orderQuantity).0 <= 0)
      && (!outcome.Queued? ==> position == position0)
      && (outcome != NoQuantity ==>
            var intent := Transition(position0, z, parameters.entryZ, parameters.exitZ);
            (outcome == NoSignal <==> intent.None?)
            && (outcome.Suppressed? <==> intent.Some? && intent.value.entry && EntryGuard(guards, now, nowWall).Some?)
            && (outcome.Suppressed? ==> outcome.guard == EntryGuard(guards, now, nowWall).value)
            && (outcome.Queued? ==> position == intent.value.newPosition && queueAccepts)
            && (outcome.QueueRefused? ==> !queueAccepts)
            && (outcome.Queued? || outcome.QueueRefused? ==>
                  outcome.signal.side == intent.value.side
                  && outcome.signal.reason == (if intent.value.entry then EntryReason else ExitReason)))
      && (outcome.Queued? || outcome.QueueRefused? ==>
            outcome.signal.quantity == CoerceOrderQuantityComponents(parameters.orderQuantity).0
            && outcome.signal.quantity > 0 && submitted == submitted0 + [AsDict(outcome.signal)])
      && (!(outcome.Queued? || outcome.QueueRefused?) ==> submitted == submitted0)
      && (outcome.Suppressed? ==>
            SkipRecord() == AfterSkipLog(skip0, GuardMessage(outcome.guard), logNow, SkipDedupeSeconds))
      && (!outcome.Suppressed? ==> SkipRecord() == skip0)
    }

    /** The decision once the history is full: the order quantity, the
        position machine, the entry guards and the queue. */
    method Decide(z: real, price: real, guards: Guards, now: real, nowWall: real, logNow: real, queueAccepts: bool)
      returns (outcome: CandleOutcome)
      requires -1 <= position <= 1
      modifies this`position, this`lastSkipMessage, this`lastSkipLoggedAt, this`skipLog, this`submitted
      ensures -1 <= position <= 1
      ensures Decided(old(position), old(submitted), old(SkipRecord()), z, guards, now, nowWall, logNow, queueAccepts,
                      outcome)
    {
      var components := CoerceOrderQuantityComponents(parameters.orderQuantity);
      var quantity := components.0;
      if quantity <= 0 {
        return NoQuantity;
      }
      var intent := Transition(position, z, parameters.entryZ, parameters.exitZ);
      if intent.None? {
        return NoSignal;
      }
      var reason := if intent.value.entry then EntryReason else ExitReason;
      var metadata := EntryMetadata(z, price, parameters.symbol, parameters.orderQuantity, components.1);
      WholeQuantityUnchanged(intent.value.side, quantity, reason, metadata);
      var signal := NewSignal(intent.value.side, DInt(quantity), reason, DMap(metadata));
      outcome := EnqueueSignal(signal, intent.value, guards, now, nowWall, logNow, queueAccepts);
    }

    /** `enqueue_signal`: entries pass the breaker, cooldown and frequency
        guards first; exits go straight to the queue. The position changes
        only when the queue accepts the signal. */
    method EnqueueSignal(signal: StrategySignal, intent: Intent, guards: Guards, now: real, nowWall: real,
                         logNow: real, queueAccepts: bool)
      returns (outcome: CandleOutcome)
      modifies this`position, this`lastSkipMessage, this`lastSkipLoggedAt, this`skipLog, this`submitted
      ensures intent.entry && EntryGuard(guards, now, nowWall).Some? ==>
        outcome == Suppressed(EntryGuard(guards, now, nowWall).value)
        && position == old(position) && submitted == old(submitted)
      ensures !(intent.entry && EntryGuard(guards, now, nowWall).Some?) ==>
        submitted == old(submitted) + [AsDict(signal)]
        && (queueAccepts ==> outcome == Queued(signal) && position == intent.newPosition)
        && (!queueAccepts ==> outcome == QueueRefused(signal) && position == old(position))
      // a suppressed entry goes through `_log_skip_reason` with the guard's message
      ensures outcome.Suppressed? ==>
        SkipRecord() == AfterSkipLog(old(SkipRecord()), GuardMessage(outcome.guard), logNow, SkipDedupeSeconds)
      ensures !outcome.Suppressed? ==> SkipRecord() == old(SkipRecord())
    {
      if intent.entry {
        var guard := EntryGuard(guards, now, nowWall);
        if guard.Some? {
          LogSkipReason(GuardMessage(guard.value), logNow, SkipDedupeSeconds);
          return Suppressed(guard.value);
        }
      }
      submitted := submitted + [AsDict(signal)];
      if !queueAccepts {
        return QueueRefused(signal);
      }
      position := intent.newPosition;
      outcome := Queued(signal);
    }
  }

  /** `deque.append` on a deque with `maxlen`: once full, the oldest price
      drops out; a zero-length deque stays empty. */
  function DequeAppend(q: seq<real>, x: real, maxlen: nat): (r: seq<real>)
    ensures |q| <= maxlen ==> |r| <= maxlen
    ensures |r| <= |q| + 1
    ensures maxlen > 0 ==> r != [] && r[|r| - 1] == x && r == (q + [x])[|q| + 1 - |r|..]
    ensures maxlen == 0 ==> r == []
  {
    if maxlen == 0 then [] else AppendBounded(q, x, maxlen)
  }

  /** On a deque no longer than its bound, appending keeps the newest
      `maxlen` prices. */
  lemma DequeAppendKeepsNewest(q: seq<real>, x: real, maxlen: nat)
    requires maxlen > 0 && |q| <= maxlen
    ensures DequeAppend(q, x, maxlen) == KeepLast(q + [x], maxlen)
  {
  }

  /** Appending prices one candle at a time leaves exactly the newest
      `lookback` prices of the history followed by them. */
  lemma {:induction false} HistoryHoldsNewest(history: seq<real>, prices: seq<real>, lookback: nat)
    requires lookback > 0 && |history| <= lookback
    ensures AppendAll(history, prices, lookback) == KeepLast(history + prices, lookback)
    decreases |prices|
  {
    if prices == [] {
      assert history + prices == history;
    } else {
      var first, rest := history + [prices[0]], prices[1..];
      var next := DequeAppend(history, prices[0], lookback);
      calc {
        AppendAll(history, prices, lookback);
        AppendAll(next, rest, lookback);
        { HistoryHoldsNewest(next, rest, lookback); }
        KeepLast(next + rest, lookback);
        { DequeAppendKeepsNewest(history, prices[0], lookback); }
        KeepLast(KeepLast(first, lookback) + rest, lookback);
        { KeepLastAppend(first, rest, lookback); }
        KeepLast(first + rest, lookback);
        { assert first + rest == history + prices; }
        KeepLast(history + prices, lookback);
      }
    }
  }

  /** Appending each price in turn, as successive candles do. */
  function AppendAll(history: seq<real>, prices: seq<real>, lookback: nat): seq<real>
    decreases |prices|
  {
    if prices == [] then history else AppendAll(DequeAppend(history, prices[0], lookback), prices[1..], lookback)
  }

  /** Keeping the newest `n` before appending more, then the newest `n`
      again, is keeping the newest `n` of everything. */
  lemma KeepLastAppend(a: seq<real>, b: seq<real>, n: nat)
    ensures KeepLast(KeepLast(a, n) + b, n) == KeepLast(a + b, n)
  {
    var k := KeepLast(a, n);
    assert (a + b)[|a| - |k|..] == k + b;
    if |k + b| > n {
      assert (k + b)[|k + b| - n..] == (a + b)[|a + b| - n..];
    }
  }
}
