/**
 * The transcription round trip with the speech server: the audio is sent
 * under its bare file name, and the call's promise is settled by whichever
 * comes first of a 'transcription_complete' event, a 'transcription_error'
 * event or a 30 s timer. Listeners are registered with `once`, so an event
 * fires every listener registered for it at that moment and removes them;
 * nothing removes the listeners of the branches that lost, and the timer is
 * never cleared.
 */
module ConnectAISocket {
  import opened Results
  import opened ErrorHandlerProvider

  /** What the speech server sends back: `null`, an object whose
      `command_code` is an integer or absent, or any other (non-object)
      value. */
  datatype Transcript = NullResult | ObjectResult(commandCode: Option<int>) | OtherResult

  /** The state of one call's promise. */
  datatype Settlement = Pending | Resolved(data: Transcript) | Rejected(error: Thrown)

  const TimeoutMs: nat := 30000
  const TimeoutMessage: string := "Transcription request timed out"

  /** `split('/').pop()`: the text after the last '/', or all of it. */
  function SentFilename(path: string): (r: string)
    ensures '/' !in r
    ensures |r| <= |path| && r == path[|path| - |r|..]
    ensures |r| < |path| ==> path[|path| - |r| - 1] == '/'
    ensures '/' !in path ==> r == path
  {
    if path == [] then []
    else if path[|path| - 1] == '/' then []
    else
      var r := SentFilename(path[..|path| - 1]) + [path[|path| - 1]];
      assert '/' !in path ==> '/' !in path[..|path| - 1];
      r
  }

  /** A promise settles once: resolving or rejecting a settled promise
      changes nothing. */
  function Settle(s: Settlement, outcome: Settlement): (r: Settlement)
    ensures s.Pending? ==> r == outcome
    ensures !s.Pending? ==> r == s
  {
    if s.Pending? then outcome else s
  }

  /** Every call listed in `calls` is settled with `outcome` unless it
      already was; every other call is untouched. */
  function SettleAll(calls: seq<Settlement>, listeners: seq<nat>, outcome: Settlement): (r: seq<Settlement>)
    ensures |r| == |calls|
    ensures forall k :: 0 <= k < |calls| ==> r[k] == if k in listeners then Settle(calls[k], outcome) else calls[k]
  {
    seq(|calls|, k requires 0 <= k < |calls| => if k in listeners then Settle(calls[k], outcome) else calls[k])
  }

  /** Settling twice with anything keeps the first settlement. */
  lemma SettleOnce(s: Settlement, first: Settlement, later: Settlement)
    requires !first.Pending?
    ensures !Settle(s, first).Pending?
    ensures Settle(Settle(s, first), later) == Settle(s, first)
  {
  }

  /** The listener of a call that an earlier timeout already settled is
      still registered, and the next 'transcription_complete' event (for
      instance the late answer to that call) settles the newer call. */
  lemma LateAnswerGoesToNewerCall(calls: seq<Settlement>, listeners: seq<nat>, oldCall: nat, newCall: nat, late: Transcript)
    requires oldCall < |calls| && newCall < |calls| && oldCall != newCall
    requires calls[oldCall] == Rejected(CustomError(InternalServerError, TimeoutMessage))
    requires calls[newCall] == Pending
    requires oldCall in listeners && newCall in listeners
    ensures SettleAll(calls, listeners, Resolved(late))[oldCall] == calls[oldCall]
    ensures SettleAll(calls, listeners, Resolved(late))[newCall] == Resolved(late)
  {
  }

  /** Every listed call exists. */
  predicate Below(listeners: seq<nat>, n: nat) {
    forall c :: c in listeners ==> c < n
  }

  /** Registering the newest call keeps every listed call existing. */
  lemma BelowExtend(listeners: seq<nat>, n: nat)
    requires Below(listeners, n)
    ensures Below(listeners, n + 1) && Below(listeners + [n], n + 1)
  {
  }

  class AISocket {
    /** The file names sent with 'transcribe_audio', in order. */
    var sent: seq<string>
    /** Call k's promise is `calls[k]`. */
    var calls: seq<Settlement>
    /** Calls with a registered 'transcription_complete' listener. */
    var completeListeners: seq<nat>
    /** Calls with a registered 'transcription_error' listener. */
    var errorListeners: seq<nat>
    /** Calls whose 30 s timer has not fired yet. */
    var timers: seq<nat>

    ghost predicate Valid()
      reads this
    {
      Below(completeListeners, |calls|) && Below(errorListeners, |calls|) && Below(timers, |calls|)
    }

    constructor ()
      ensures Valid()
      ensures sent == [] && calls == [] && completeListeners == [] && errorListeners == [] && timers == []
    {
      sent := [];
      calls := [];
      completeListeners := [];
      errorListeners := [];
      timers := [];
    }

    /** `emitAudioAndWait`: sends the bare file name, then registers the
        call's complete and error listeners and its timer. */
    method EmitAudioAndWait(audioFilePath: string) returns (call: nat)
      requires Valid()
      modifies this
      ensures Valid()
      ensures call == old(|calls|) && calls == old(calls) + [Pending]
      ensures sent == old(sent) + [SentFilename(audioFilePath)]
      ensures completeListeners == old(completeListeners) + [call]
      ensures errorListeners == old(errorListeners) + [call]
      ensures timers == old(timers) + [call]
    {
      call := |calls|;
      BelowExtend(completeListeners, call);
      BelowExtend(errorListeners, call);
      BelowExtend(timers, call);
      calls := calls + [Pending];
      sent := sent + [SentFilename(audioFilePath)];
      completeListeners := completeListeners + [call];
      errorListeners := errorListeners + [call];
      timers := timers + [call];
    }

    /** A 'transcription_complete' event: every registered complete
        listener fires once and is removed; each resolves its own call with
        the data unchanged, unless that call already settled. */
    method OnTranscriptionComplete(data: Transcript)
      requires Valid()
      modifies this
      ensures Valid()
      ensures calls == SettleAll(old(calls), old(completeListeners), Resolved(data))
      ensures completeListeners == []
      ensures sent == old(sent) && errorListeners == old(errorListeners) && timers == old(timers)
    {
      FireAll(completeListeners, Resolved(data));
      completeListeners := [];
    }

    /** A 'transcription_error' event: every registered error listener
        fires once and is removed, rejecting its call with an Error that
        carries the payload's message. */
    method OnTranscriptionError(message: string)
      requires Valid()
      modifies this
      ensures Valid()
      ensures calls == SettleAll(old(calls), old(errorListeners), Rejected(PlainError(message)))
      ensures errorListeners == []
      ensures sent == old(sent) && completeListeners == old(completeListeners) && timers == old(timers)
    {
      FireAll(errorListeners, Rejected(PlainError(message)));
      errorListeners := [];
    }

    /** Call `call`'s timer fires after 30 s: it rejects with the 500
        CustomError, which only matters if the call is still pending. */
    method OnTimeout(call: nat)
      requires Valid() && call in timers
      modifies this
      ensures Valid()
      ensures calls == old(calls)[call := Settle(old(calls)[call], Rejected(CustomError(InternalServerError, TimeoutMessage)))]
      ensures timers == RemoveFirst(old(timers), call)
      ensures sent == old(sent) && completeListeners == old(completeListeners) && errorListeners == old(errorListeners)
    {
      calls := calls[call := Settle(calls[call], Rejected(CustomError(InternalServerError, TimeoutMessage)))];
      timers := RemoveFirst(timers, call);
    }

    /** Runs the fired listeners one after another. */
    method FireAll(listeners: seq<nat>, outcome: Settlement)
      requires Valid()
      requires forall c :: c in listeners ==> c < |calls|
      modifies this
      ensures Valid()
      ensures calls == SettleAll(old(calls), listeners, outcome)
      ensures sent == old(sent) && completeListeners == old(completeListeners)
      ensures errorListeners == old(errorListeners) && timers == old(timers)
    {
      var i := 0;
      while i < |listeners|
        invariant 0 <= i <= |listeners|
        invariant Valid() && |calls| == old(|calls|)
        invariant calls == SettleAll(old(calls), listeners[..i], outcome)
        invariant sent == old(sent) && completeListeners == old(completeListeners)
        invariant errorListeners == old(errorListeners) && timers == old(timers)
      {
        var call := listeners[i];
        assert call in listeners;
        calls := calls[call := Settle(calls[call], outcome)];
        assert listeners[..i + 1] == listeners[..i] + [call];
        i := i + 1;
      }
      assert listeners[..i] == listeners;
    }
  }

  /** The list without its first occurrence of `x`. */
  function RemoveFirst(s: seq<nat>, x: nat): (r: seq<nat>)
    ensures x in s ==> |r| == |s| - 1
    ensures x !in s ==> r == s
    ensures forall y :: y in r ==> y in s
  {
    if s == [] then []
    else if s[0] == x then s[1..]
    else
      assert s == [s[0]] + s[1..];
      [s[0]] + RemoveFirst(s[1..], x)
  }
}
