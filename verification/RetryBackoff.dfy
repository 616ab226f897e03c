/**
 Retries of the connection to a sidecar: the attempt is printed into the status of the CSIAddonsNode
 and parsed back at the next failure, which decides the delay, or the deletion of the object.
 */
module RetryBackoff {
  import opened Wrappers
  import opened Decimal

  const LABEL: string := "currentAttempt"
  const MAX_RETRIES := 3

  function PrintReason(n: nat): string { LABEL + [':'] + ([' '] + Print(n)) }

  lemma ReasonText(n: nat)
    ensures PrintReason(n) == "currentAttempt: " + Print(n)
  {
    assert "currentAttempt: " == LABEL + [':'] + [' '];
  }

  predicate IsSpace(c: char) {
    || '\t' <= c <= '\r' || c == ' ' || c == '\U{85}' || c == '\U{A0}' || c == '\U{1680}' || '\U{2000}' <= c <= '\U{200A}'
    || c == '\U{2028}' || c == '\U{2029}' || c == '\U{202F}' || c == '\U{205F}' || c == '\U{3000}'
  }

  function TrimSpace(s: string): string
    decreases |s|
  {
    if s == [] then s
    else if IsSpace(s[0]) then TrimSpace(s[1..])
    else if IsSpace(s[|s| - 1]) then TrimSpace(s[..|s| - 1])
    else s
  }

  /** The position of the first colon, or the length. */
  function Colon(s: string): (i: nat)
    ensures i <= |s| && (i < |s| ==> s[i] == ':') && forall j :: 0 <= j < i ==> s[j] != ':'
  {
    if s == [] || s[0] == ':' then 0 else 1 + Colon(s[1..])
  }

  function RetryCount(reason: string): Option<int> {
    if reason == [] then Some(0)
    else
      var i := Colon(reason);
      if i == |reason| then None else Atoi(TrimSpace(reason[i + 1..]))
  }

  lemma TrimPrinted(n: nat)
    ensures TrimSpace([' '] + Print(n)) == Print(n)
  {
    var s := [' '] + Print(n);
    assert s[1..] == Print(n);
    assert IsDigit(Print(n)[0]) && IsDigit(Print(n)[|Print(n)| - 1]);
  }

  lemma ColonOfReason(n: nat)
    ensures Colon(PrintReason(n)) == |LABEL| && PrintReason(n)[|LABEL| + 1..] == [' '] + Print(n)
  {
    var r := PrintReason(n);
    assert r[|LABEL|] == ':';
    assert forall j :: 0 <= j < |LABEL| ==> r[j] == LABEL[j] && LABEL[j] != ':';
  }

  /** The counter read back is the counter printed, exactly for those an int can hold. */
  lemma ReasonRoundTrip(n: nat)
    ensures RetryCount(PrintReason(n)) == Some(n) <==> n < INT64_BOUND
    ensures n >= INT64_BOUND ==> RetryCount(PrintReason(n)) == None
  {
    ColonOfReason(n);
    TrimPrinted(n);
    ValueOfPrint(n);
    assert IsDigit(Print(n)[0]);
  }

  // ----- Runs -----

  /** One reconcile of an object that is not being deleted: whether the sidecar was reached, and whether the write that follows succeeds. */
  datatype Event = Connected(written: bool) | Failed(written: bool)

  /** Requeue after a multiple of the base retry delay. */
  datatype Outcome = Done | ParseError | WriteError | Requeue(multiple: nat) | Deleted

  function Pow2(k: nat): nat { if k == 0 then 1 else 2 * Pow2(k - 1) }

  /** Failures recorded since the last recorded connection. */
  function Failures(es: seq<Event>): nat {
    if es == [] then 0
    else
      match es[|es| - 1]
      case Connected(true) => 0
      case Failed(true) => Failures(es[..|es| - 1]) + 1
      case _ => Failures(es[..|es| - 1])
  }

  function Attempt(es: seq<Event>): nat { if Failures(es) < MAX_RETRIES then Failures(es) else MAX_RETRIES }

  function ReasonFor(attempt: nat): string { if attempt == 0 then [] else PrintReason(attempt) }

  lemma ReasonForRoundTrip(attempt: nat)
    requires attempt <= MAX_RETRIES
    ensures RetryCount(ReasonFor(attempt)) == Some(attempt)
  {
    ReasonRoundTrip(attempt);
  }

  lemma FailuresNext(es: seq<Event>, written: bool)
    ensures Failures(es + [Failed(written)]) == Failures(es) + if written then 1 else 0
    ensures Failures(es + [Connected(written)]) == if written then 0 else Failures(es)
  {
    assert (es + [Failed(written)])[..|es|] == es && (es + [Connected(written)])[..|es|] == es;
  }

  /** The count is zero exactly if each recorded failure is followed by a recorded connection. */
  lemma {:induction false} NoFailures(es: seq<Event>)
    ensures Failures(es) == 0 <==>
      forall i :: 0 <= i < |es| && es[i] == Failed(true) ==> exists j :: i < j < |es| && es[j] == Connected(true)
  {
    if es != [] {
      var n := |es| - 1;
      NoFailures(es[..n]);
      if es[n] != Connected(true) && es[n] != Failed(true) {
        forall i | 0 <= i < n && es[i] == Failed(true)
          ensures (exists j :: i < j < n && es[..n][j] == Connected(true)) <==> exists j :: i < j < |es| && es[j] == Connected(true)
        {
          if j :| i < j < |es| && es[j] == Connected(true) { assert es[..n][j] == es[j]; }
        }
        assert forall i :: 0 <= i < n ==> es[..n][i] == es[i];
      }
    }
  }

  /** k failures in a row, all writes succeeding. */
  function InARow(es: seq<Event>, k: nat): seq<Event> { if k == 0 then es else InARow(es, k - 1) + [Failed(true)] }

  lemma {:induction false} FailuresInARow(es: seq<Event>, k: nat)
    ensures Failures(InARow(es, k)) == Failures(es) + k
  {
    if k > 0 {
      FailuresInARow(es, k - 1);
      FailuresNext(InARow(es, k - 1), true);
    }
  }

  /** After a connection, or on a new object, the delays are 1, 2 and 4 times the base and the fourth failure deletes the object. */
  lemma DelaysDouble(es: seq<Event>, k: nat)
    requires Failures(es) == 0
    ensures Due(InARow(es, k), true) == if k == 0 then Requeue(1) else if k == 1 then Requeue(2) else if k == 2 then Requeue(4) else Deleted
  {
    FailuresInARow(es, k);
    assert Pow2(1) == 2 * Pow2(0) && Pow2(2) == 2 * Pow2(1);
  }

  /** What a failure after es must lead to. */
  function Due(es: seq<Event>, written: bool): Outcome {
    if !written then WriteError else if Failures(es) >= MAX_RETRIES then Deleted else Requeue(Pow2(Failures(es)))
  }

  class CsiAddonsNode {
    var reason: string
    var deleted: bool
    ghost var events: seq<Event>

    /** The reason is empty or encodes one of the attempts 1 to 3. */
    ghost predicate Valid()
      reads this
    {
      reason == ReasonFor(Attempt(events))
    }

    constructor ()
      ensures Valid() && !deleted && events == []
    {
      reason, deleted, events := [], false, [];
    }

    method CurrentRetries() returns (count: Option<int>)
      requires Valid()
      ensures count == Some(Attempt(events))
    {
      ReasonForRoundTrip(Attempt(events));
      count := RetryCount(reason);
    }

    /** A failed attempt; the error branch for an unreadable reason is never taken. */
    method BackoffAndRetry(written: bool) returns (o: Outcome)
      requires Valid() && !deleted
      modifies this
      ensures Valid() && events == old(events) + [Failed(written)]
      ensures o == Due(old(events), written) && (deleted <==> o.Deleted?)
    {
      var count := CurrentRetries();
      FailuresNext(events, written);
      events := events + [Failed(written)];
      if count.None? {
        return ParseError;
      }
      if count.value >= MAX_RETRIES {
        deleted := written;
        return if written then Deleted else WriteError;
      }
      if !written {
        return WriteError;
      }
      reason := PrintReason(count.value + 1);
      return Requeue(Pow2(count.value));
    }

    method Succeed(written: bool) returns (o: Outcome)
      requires Valid() && !deleted
      modifies this
      ensures Valid() && events == old(events) + [Connected(written)] && !deleted
      ensures o == (if written then Done else WriteError) && (written ==> reason == [])
    {
      FailuresNext(events, written);
      events := events + [Connected(written)];
      if !written {
        return WriteError;
      }
      reason := [];
      return Done;
    }
  }
}
