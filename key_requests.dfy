/**
 * The client's keyframe requests (`requestKeyframe` in client/js/network.js).
 * A request goes out at most once per `KEY_REQ_MIN_INTERVAL_MS`; a request
 * made sooner arms a single deferred retry (`pendingKeyReqTimer`, the flag
 * `keyReqTimer`), and the timer firing is the operation `KeyTimerFires`.
 */
module KeyRequests {
  import opened Bytes
  import opened ClientState

  /** `mkCtrlMsg(MSG.REQUEST_KEY, 4)`: the magic alone. */
  function KeyRequestMessage(): (r: seq<byte>)
    ensures |r| == 4 && ReadLE(r) == MSG_REQUEST_KEY
  {
    Pow256Values();
    ReadLEOfLE(MSG_REQUEST_KEY, 4);
    LE(MSG_REQUEST_KEY, 4)
  }

  /** Less than the minimum interval has passed since the last request went out. */
  predicate TooSoon(lastAt: real, nowMs: real)
  {
    KEY_REQ_MIN_INTERVAL_MS - (nowMs - lastAt) > 0.0
  }

  /** A request made at nowMs is sent rather than refused or deferred. */
  predicate Sends(v: VideoPath, nowMs: real)
  {
    v.ctrlOpen && !TooSoon(v.lastKeyReqAt, nowMs)
  }

  /**
   * `requestKeyframe`: refused while the channel is closed; deferred (arming
   * the one timer if it is not armed) while too soon; otherwise the timer is
   * cancelled, the message sent and the send time remembered.
   */
  function RequestKey(v: VideoPath, nowMs: real): (r: VideoPath)
    ensures r == v.(ctrlSent := r.ctrlSent, lastKeyReqAt := r.lastKeyReqAt, keyReqTimer := r.keyReqTimer)
    ensures Sends(v, nowMs) ==>
      r.ctrlSent == v.ctrlSent + [KeyRequestMessage()] && r.lastKeyReqAt == nowMs && !r.keyReqTimer
    ensures !Sends(v, nowMs) ==> r.ctrlSent == v.ctrlSent && r.lastKeyReqAt == v.lastKeyReqAt
    ensures !Sends(v, nowMs) ==> (r.keyReqTimer <==> v.keyReqTimer || v.ctrlOpen)
  {
    var sends := Sends(v, nowMs);
    var timer := if !v.ctrlOpen then v.keyReqTimer else !sends;
    v.(keyReqTimer := timer,
       ctrlSent := if sends then v.ctrlSent + [KeyRequestMessage()] else v.ctrlSent,
       lastKeyReqAt := if sends then nowMs else v.lastKeyReqAt)
  }

  /** The deferred request's timeout: the handle is cleared and the request made again. */
  function KeyTimerFires(v: VideoPath, nowMs: real): VideoPath
  {
    RequestKey(v.(keyReqTimer := false), nowMs)
  }

  /** Two requests that both go out are at least the minimum interval apart. */
  lemma SentRequestsSpaced(v: VideoPath, t1: real, t2: real)
    requires Sends(v, t1) && Sends(RequestKey(v, t1), t2)
    ensures t2 - t1 >= KEY_REQ_MIN_INTERVAL_MS
    ensures |RequestKey(RequestKey(v, t1), t2).ctrlSent| == |v.ctrlSent| + 2
  {
  }

  /** Asking again while a request is deferred arms nothing new. */
  lemma DeferralIsSingle(v: VideoPath, t1: real, t2: real)
    requires v.ctrlOpen && TooSoon(v.lastKeyReqAt, t1) && TooSoon(v.lastKeyReqAt, t2)
    ensures RequestKey(RequestKey(v, t1), t2) == RequestKey(v, t1)
    ensures RequestKey(v, t1).keyReqTimer
  {
  }

  /**
   * The timer is armed for the rest of the interval; when it fires then (or
   * later) with the channel still open, the coalesced request goes out.
   */
  lemma TimerSendsWhenDue(v: VideoPath, nowMs: real)
    requires v.ctrlOpen && nowMs >= v.lastKeyReqAt + KEY_REQ_MIN_INTERVAL_MS
    ensures KeyTimerFires(v, nowMs).ctrlSent == v.ctrlSent + [KeyRequestMessage()]
    ensures KeyTimerFires(v, nowMs).lastKeyReqAt == nowMs && !KeyTimerFires(v, nowMs).keyReqTimer
  {
  }

  /** `requestKeyframe` on the session; the result is whether the message went out. */
  method RequestKeyframe(s: Session, nowMs: real) returns (sent: bool)
    modifies s`ctrlSent, s`lastKeyReqAt, s`keyReqTimer
    ensures sent == Sends(old(s.View()), nowMs)
    ensures s.View() == RequestKey(old(s.View()), nowMs)
  {
    if !s.ctrlOpen {
      return false;
    }
    var waitMs := RMax(0.0, KEY_REQ_MIN_INTERVAL_MS - (nowMs - s.lastKeyReqAt));
    if waitMs > 0.0 {
      if !s.keyReqTimer {
        s.keyReqTimer := true;
      }
      return false;
    }
    if s.keyReqTimer {
      s.keyReqTimer := false;
    }
    sent := s.SendControl(KeyRequestMessage());
    if sent {
      s.lastKeyReqAt := nowMs;
    }
  }

  /** The `setTimeout` callback of a deferred request. */
  method OnKeyTimer(s: Session, nowMs: real) returns (sent: bool)
    requires s.keyReqTimer
    modifies s`ctrlSent, s`lastKeyReqAt, s`keyReqTimer
    ensures s.View() == KeyTimerFires(old(s.View()), nowMs)
  {
    s.keyReqTimer := false;
    sent := RequestKeyframe(s, nowMs);
  }
}
