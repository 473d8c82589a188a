/**
 * The tagged payload carried on the notification channel: `<localId>::<json>`.
 * Framing on the sending side, and on the receiving side the split at the
 * first separator, the self-origin filter and the choice of what is delivered.
 */
module Codec {
  import opened Wrappers

  const Separator: string := "::"

  /** The separator starts at index k of s. */
  predicate SeparatorAt(s: string, k: int) {
    0 <= k && k + 1 < |s| && s[k] == ':' && s[k + 1] == ':'
  }

  predicate HasSeparator(s: string) {
    exists k | 0 <= k < |s| :: SeparatorAt(s, k)
  }

  /**
   * The index of the first "::" in s: the match that the regex engine behind
   * `String.split("::", 2)` finds first.
   */
  function FirstSeparator(s: string): (r: Option<nat>)
    ensures r.Some? ==> SeparatorAt(s, r.value)
    ensures r.Some? ==> forall j :: 0 <= j < r.value ==> !SeparatorAt(s, j)
    ensures r.None? ==> forall j :: !SeparatorAt(s, j)
    decreases |s|
  {
    if |s| < 2 then None
    else if s[0] == ':' && s[1] == ':' then Some(0)
    else
      match FirstSeparator(s[1..])
      case None =>
        assert forall j :: SeparatorAt(s, j) ==> j == 0 || SeparatorAt(s[1..], j - 1);
        None
      case Some(k) =>
        assert forall j :: 0 < j <= k ==> (SeparatorAt(s, j) <==> SeparatorAt(s[1..], j - 1));
        Some(k + 1)
  }

  /**
   * `raw.split("::", 2)` in Java: with a positive limit the pattern is applied
   * at most once and empty leading or trailing parts are kept.
   */
  function SplitFirst(raw: string): (parts: seq<string>)
    ensures |parts| == 1 || |parts| == 2
    ensures |parts| == 1 <==> !HasSeparator(raw)
    ensures |parts| == 1 ==> parts[0] == raw
    ensures |parts| == 2 ==> raw == parts[0] + Separator + parts[1]
    ensures |parts| == 2 ==> forall j :: 0 <= j < |parts[0]| ==> !SeparatorAt(raw, j)
  {
    match FirstSeparator(raw)
    case None => [raw]
    case Some(k) =>
      assert raw == raw[..k] + Separator + raw[k + 2..];
      [raw[..k], raw[k + 2..]]
  }

  /** The text a watcher hands to `notify`: its own id, the separator, the JSON. */
  function Frame(localId: string, json: string): string {
    localId + Separator + json
  }

  /** What the receiving side does with one raw notification payload. */
  datatype Delivery = Suppressed | Deliver(message: string)

  /**
   * The decision of onMessageReceived: a payload whose text before the first
   * separator is this instance's own id is dropped; otherwise the text after
   * the first separator, or the whole payload when there is none, is delivered.
   */
  function Receive(localId: string, raw: string): (d: Delivery)
    ensures d.Suppressed? <==>
              && |localId| + 2 <= |raw|
              && raw[..|localId|] == localId
              && SeparatorAt(raw, |localId|)
              && forall j :: 0 <= j < |localId| ==> !SeparatorAt(raw, j)
    ensures d.Deliver? && !HasSeparator(raw) ==> d.message == raw
    ensures d.Deliver? && HasSeparator(raw) ==>
              exists k :: && SeparatorAt(raw, k)
                          && (forall j :: 0 <= j < k ==> !SeparatorAt(raw, j))
                          && raw[..k] != localId
                          && d.message == raw[k + 2..]
  {
    var parts := SplitFirst(raw);
    if |parts| == 2 && parts[0] == localId then
      Suppressed
    else if |parts| == 2 then
      assert parts[0] == raw[..|parts[0]|];
      assert parts[1] == raw[|parts[0]| + 2..];
      Deliver(parts[1])
    else
      Deliver(raw)
  }

  /**
   * An id for which the first separator of every frame it tags is the one
   * the frame adds: no "::" inside, and no ':' at the end.
   */
  predicate SafeId(localId: string) {
    && !HasSeparator(localId)
    && (|localId| == 0 || localId[|localId| - 1] != ':')
  }

  /** An id without any ':' is safe. */
  lemma NoColonIsSafe(localId: string)
    requires forall i :: 0 <= i < |localId| ==> localId[i] != ':'
    ensures SafeId(localId)
  {
  }

  /**
   * Splitting a frame gives back the id and the JSON, whatever the JSON
   * holds, exactly when the id is safe.
   */
  lemma {:induction false} SplitFrameIff(localId: string, json: string)
    ensures SplitFirst(Frame(localId, json)) == [localId, json] <==> SafeId(localId)
  {
    var raw := Frame(localId, json);
    var n := |localId|;
    assert SeparatorAt(raw, n);
    forall j | 0 <= j < n - 1
      ensures SeparatorAt(raw, j) <==> SeparatorAt(localId, j)
    {
    }
    if SafeId(localId) {
      forall j | 0 <= j < n
        ensures !SeparatorAt(raw, j)
      {
        if j == n - 1 {
          assert raw[j] == localId[n - 1];
        } else {
          assert !SeparatorAt(localId, j);
        }
      }
      assert raw[..n] == localId;
      assert raw[n + 2..] == json;
      assert FirstSeparator(raw) == Some(n);
    } else {
      var k: int;
      if HasSeparator(localId) {
        k :| 0 <= k < n && SeparatorAt(localId, k);
        assert raw[k] == localId[k] && raw[k + 1] == localId[k + 1];
        assert SeparatorAt(raw, k);
      } else {
        k := n - 1;
        assert raw[k] == ':' && raw[k + 1] == ':';
        assert SeparatorAt(raw, k);
      }
      var parts := SplitFirst(raw);
      assert |parts| == 2 ==> |parts[0]| <= k;
    }
  }

  /** Another instance receiving a frame tagged with a safe id delivers exactly the JSON. */
  lemma CrossInstanceDelivery(sender: string, receiver: string, json: string)
    requires SafeId(sender)
    requires receiver != sender
    ensures Receive(receiver, Frame(sender, json)) == Deliver(json)
  {
    SplitFrameIff(sender, json);
  }

  /** The sender receiving its own frame (as every subscriber does) delivers nothing. */
  lemma SelfSuppression(localId: string, json: string)
    requires SafeId(localId)
    ensures Receive(localId, Frame(localId, json)) == Suppressed
  {
    SplitFrameIff(localId, json);
  }

  /**
   * An instance ignores its own frames exactly when its id is safe: an id
   * holding "::" or ending in ':' puts a separator before the real one.
   */
  lemma {:induction false} SelfSuppressionIff(localId: string, json: string)
    ensures Receive(localId, Frame(localId, json)) == Suppressed <==> SafeId(localId)
  {
    if SafeId(localId) {
      SelfSuppression(localId, json);
    } else {
      var raw := Frame(localId, json);
      var n := |localId|;
      if HasSeparator(localId) {
        var k :| 0 <= k < n && SeparatorAt(localId, k);
        assert raw[k] == localId[k] && raw[k + 1] == localId[k + 1];
        assert SeparatorAt(raw, k);
      } else {
        assert raw[n - 1] == ':' && raw[n] == ':';
        assert SeparatorAt(raw, n - 1);
      }
    }
  }

  /**
   * Without the precondition the filter is not sound: an id ending in ':'
   * has the first separator straddle its last character, so the sender
   * hears itself and the JSON arrives with a leading ':'.
   */
  lemma TrailingColonIdHearsItself()
    ensures Receive("a:", Frame("a:", "{}")) == Deliver(":{}")
  {
    var raw := Frame("a:", "{}");
    assert raw == "a:::{}";
    assert raw[1..] == ":::{}";
    assert FirstSeparator(raw[1..]) == Some(0);
    assert raw[..1] == "a" && raw[3..] == ":{}";
    assert SplitFirst(raw) == ["a", ":{}"];
  }

  /**
   * An id containing "::" is cut at its own separator: a different instance
   * whose id is the part before it drops the message as its own.
   */
  lemma SeparatorInIdSuppressesOther()
    ensures Receive("a", Frame("a::b", "{}")) == Suppressed
    ensures Receive("a::b", Frame("a::b", "{}")) == Deliver("b::{}")
  {
    var raw := Frame("a::b", "{}");
    assert raw == "a::b::{}";
    assert raw[1..] == "::b::{}";
    assert FirstSeparator(raw[1..]) == Some(0);
    assert raw[..1] == "a" && raw[3..] == "b::{}";
    assert SplitFirst(raw) == ["a", "b::{}"];
  }
}
