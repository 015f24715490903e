/** The keys under which shown monitor events are acknowledged. */
module EventKeys {
  import opened Basics
  import opened PlainText

  const PREFIX := "event:"
  const MAX_SAFE_INTEGER: nat := 9007199254740991

  datatype EventKey = EventKey(launchId: string, endOffset: nat)

  function Printed(launchId: string, endOffset: nat): string {
    PREFIX + launchId + "@" + Decimal(endOffset)
  }

  /** The index of the last at sign, or -1. */
  function LastAt(s: string): (i: int)
    ensures -1 <= i < |s| && (i >= 0 ==> s[i] == '@') && forall k :: i < k < |s| ==> s[k] != '@'
  {
    if s == [] then -1 else if s[|s| - 1] == '@' then |s| - 1 else LastAt(s[..|s| - 1])
  }

  function Parsed(key: string): Option<EventKey> {
    if !(PREFIX <= key) then None
    else
      var body := key[|PREFIX|..];
      var at := LastAt(body);
      if at <= 0 then None
      else
        var digits := body[at + 1..];
        if digits == [] || !AllDigits(digits) then None
        else
          var endOffset := NumberOf(digits);
          if endOffset > MAX_SAFE_INTEGER || endOffset == 0 then None else Some(EventKey(body[..at], endOffset))
  }

  lemma LastAtIs(s: string, i: nat)
    requires i < |s| && s[i] == '@' && forall k :: i < k < |s| ==> s[k] != '@'
    ensures LastAt(s) == i
  {
  }

  /** Digits hold no at sign, so the sign before them is the last one. */
  lemma LastAtBeforeDigits(s: string, at: nat)
    requires at < |s| && s[at] == '@' && AllDigits(s[at + 1..])
    ensures LastAt(s) == at
  {
    var digits := s[at + 1..];
    forall k | at < k < |s| ensures s[k] != '@' {
      assert digits[k - at - 1] in digits && digits[k - at - 1] == s[k];
    }
    LastAtIs(s, at);
  }

  /** A printed key parses back exactly when it names a launch and a positive safe offset. */
  lemma KeyRoundTrip(launchId: string, endOffset: nat)
    ensures Parsed(Printed(launchId, endOffset)) ==
            (if launchId != "" && 0 < endOffset <= MAX_SAFE_INTEGER then Some(EventKey(launchId, endOffset)) else None)
  {
    var digits := Decimal(endOffset);
    var key := Printed(launchId, endOffset);
    var body := key[|PREFIX|..];
    assert body == launchId + "@" + digits;
    assert body[..|launchId|] == launchId && body[|launchId| + 1..] == digits;
    LastAtBeforeDigits(body, |launchId|);
    DecimalRoundTrip(endOffset);
  }
}
