/**
 * backend/routes/webhooks.js: the Twilio call webhook (signature check,
 * recording key, event row) and the Gmail Pub/Sub push (which action the
 * notification leads to).
 *
 * HMAC-SHA1 with base64 output is the parameter `hmac`; its result is 28
 * characters, the base64 length of a 20-byte digest. The POST body is a map
 * from field name to value together with its key order (`Object.keys`);
 * a missing field is the empty string. The clock is `nowIso`, and turning a
 * Twilio `Timestamp` into a date is `dateOf`.
 */
module Webhooks {
  import opened Wrappers
  import opened Text
  import Anonymize
  import TrustScore
  import Events

  // ---------------------------------------------------------------------------
  // `Array.prototype.sort` on strings
  // ---------------------------------------------------------------------------

  /** The default sort order of strings: character by character, a proper prefix first. */
  predicate StrLe(a: string, b: string)
    decreases |a|
  {
    a == [] || (b != [] && (a[0] < b[0] || (a[0] == b[0] && StrLe(a[1..], b[1..]))))
  }

  lemma {:induction false} StrLeRefl(a: string)
    ensures StrLe(a, a)
    decreases |a|
  {
    if a != [] {
      StrLeRefl(a[1..]);
    }
  }

  lemma {:induction false} StrLeTotal(a: string, b: string)
    ensures StrLe(a, b) || StrLe(b, a)
    decreases |a|
  {
    if a != [] && b != [] && a[0] == b[0] {
      StrLeTotal(a[1..], b[1..]);
    }
  }

  lemma {:induction false} StrLeTrans(a: string, b: string, c: string)
    requires StrLe(a, b) && StrLe(b, c)
    ensures StrLe(a, c)
    decreases |a|
  {
    if a != [] && a[0] == b[0] && b[0] == c[0] {
      StrLeTrans(a[1..], b[1..], c[1..]);
    }
  }

  lemma {:induction false} StrLeAntisym(a: string, b: string)
    requires StrLe(a, b) && StrLe(b, a)
    ensures a == b
    decreases |a|
  {
    if a != [] {
      StrLeAntisym(a[1..], b[1..]);
      assert a == [a[0]] + a[1..] && b == [b[0]] + b[1..];
    }
  }

  predicate Sorted(s: seq<string>) {
    forall i, j :: 0 <= i < j < |s| ==> StrLe(s[i], s[j])
  }

  /** `x` placed before the first element it does not exceed. */
  function Insert(x: string, s: seq<string>): (r: seq<string>)
    ensures multiset(r) == multiset(s) + multiset{x}
    decreases |s|
  {
    if s == [] then [x]
    else if StrLe(x, s[0]) then [x] + s
    else
      assert s == [s[0]] + s[1..];
      [s[0]] + Insert(x, s[1..])
  }

  /** The sorted keys: the same keys, each as often, in sort order. */
  function Sort(s: seq<string>): (r: seq<string>)
    ensures multiset(r) == multiset(s)
    decreases |s|
  {
    if s == [] then []
    else
      assert s == [s[0]] + s[1..];
      Insert(s[0], Sort(s[1..]))
  }

  /** A lower bound of `x` and of every element of `s` bounds every element of `Insert(x, s)`. */
  lemma {:induction false} InsertLowerBound(b: string, x: string, s: seq<string>)
    requires StrLe(b, x) && forall k :: 0 <= k < |s| ==> StrLe(b, s[k])
    ensures forall k :: 0 <= k < |Insert(x, s)| ==> StrLe(b, Insert(x, s)[k])
    decreases |s|
  {
    if s != [] && !StrLe(x, s[0]) {
      InsertLowerBound(b, x, s[1..]);
    }
  }

  lemma {:induction false} InsertSorted(x: string, s: seq<string>)
    requires Sorted(s)
    ensures Sorted(Insert(x, s))
    decreases |s|
  {
    if s == [] {
    } else if StrLe(x, s[0]) {
      var r := [x] + s;
      forall i, j | 0 <= i < j < |r| ensures StrLe(r[i], r[j]) {
        if i == 0 && j > 1 {
          StrLeTrans(x, s[0], s[j - 1]);
        }
      }
    } else {
      var t := Insert(x, s[1..]);
      InsertSorted(x, s[1..]);
      StrLeTotal(x, s[0]);
      InsertLowerBound(s[0], x, s[1..]);
      var r := [s[0]] + t;
      forall i, j | 0 <= i < j < |r| ensures StrLe(r[i], r[j]) {
        if i > 0 {
          assert r[i] == t[i - 1] && r[j] == t[j - 1];
        }
      }
    }
  }

  lemma {:induction false} SortSorted(s: seq<string>)
    ensures Sorted(Sort(s))
    decreases |s|
  {
    if s != [] {
      SortSorted(s[1..]);
      InsertSorted(s[0], Sort(s[1..]));
    }
  }

  /** Two sorted sequences with the same elements, each as often, are the same sequence. */
  lemma {:induction false} SortedUnique(s: seq<string>, t: seq<string>)
    requires Sorted(s) && Sorted(t) && multiset(s) == multiset(t)
    ensures s == t
    decreases |s|
  {
    if s == [] {
      assert |t| == |multiset(t)| == 0;
    } else {
      assert t != [] by {
        assert s[0] in multiset(t);
      }
      assert StrLe(t[0], s[0]) by {
        assert s[0] in multiset(t);
        var j :| 0 <= j < |t| && t[j] == s[0];
        if j == 0 { StrLeRefl(t[0]); }
      }
      assert StrLe(s[0], t[0]) by {
        assert t[0] in multiset(s);
        var j :| 0 <= j < |s| && s[j] == t[0];
        if j == 0 { StrLeRefl(s[0]); }
      }
      StrLeAntisym(s[0], t[0]);
      assert multiset(s[1..]) == multiset(s) - multiset{s[0]} by {
        assert s == [s[0]] + s[1..];
      }
      assert multiset(t[1..]) == multiset(t) - multiset{t[0]} by {
        assert t == [t[0]] + t[1..];
      }
      SortedUnique(s[1..], t[1..]);
    }
  }

  /** Sorting forgets the order it was given: keys holding the same elements sort alike. */
  lemma SortIgnoresOrder(k1: seq<string>, k2: seq<string>)
    requires multiset(k1) == multiset(k2)
    ensures Sort(k1) == Sort(k2)
  {
    SortSorted(k1);
    SortSorted(k2);
    SortedUnique(Sort(k1), Sort(k2));
  }

  // ---------------------------------------------------------------------------
  // The Twilio signature
  // ---------------------------------------------------------------------------

  predicate Distinct(keys: seq<string>) {
    forall i, j :: 0 <= i < j < |keys| ==> keys[i] != keys[j]
  }

  /** What `Object.keys` returns for a body: each field name once. */
  predicate IsKeyOrder(keys: seq<string>, params: map<string, string>) {
    Distinct(keys) && (forall k :: k in keys ==> k in params) && (forall k :: k in params ==> k in keys)
  }

  lemma {:induction false} DistinctCounts(keys: seq<string>, x: string)
    requires Distinct(keys)
    ensures multiset(keys)[x] == if x in keys then 1 else 0
    decreases |keys|
  {
    if keys != [] {
      var n := |keys| - 1;
      assert keys == keys[..n] + [keys[n]];
      assert Distinct(keys[..n]);
      DistinctCounts(keys[..n], x);
      assert x == keys[n] ==> x !in keys[..n];
    }
  }

  /** Two key orders of the same body hold the same keys. */
  lemma KeyOrdersAgree(k1: seq<string>, k2: seq<string>, params: map<string, string>)
    requires IsKeyOrder(k1, params) && IsKeyOrder(k2, params)
    ensures multiset(k1) == multiset(k2)
  {
    forall x ensures multiset(k1)[x] == multiset(k2)[x] {
      DistinctCounts(k1, x);
      DistinctCounts(k2, x);
    }
  }

  /** `${key}${params[key]}` for each key in turn, joined with nothing between. */
  function KeyValues(sortedKeys: seq<string>, params: map<string, string>): (r: string)
    requires forall k :: k in sortedKeys ==> k in params
    ensures sortedKeys != [] ==> StartsWith(r, sortedKeys[0] + params[sortedKeys[0]])
    decreases |sortedKeys|
  {
    if sortedKeys == [] then ""
    else
      var k := sortedKeys[0];
      var rest := KeyValues(sortedKeys[1..], params);
      assert (k + params[k] + rest)[..|k + params[k]|] == k + params[k];
      k + params[k] + rest
  }

  /** `url + sortedParams`: the URL, then every field as name and value, the names in sort order. */
  function SignatureString(url: string, params: map<string, string>, keys: seq<string>): (r: string)
    requires IsKeyOrder(keys, params)
    ensures StartsWith(r, url)
  {
    var sorted := Sort(keys);
    assert forall k :: k in sorted ==> k in multiset(keys);
    var r := url + KeyValues(sorted, params);
    assert r[..|url|] == url;
    r
  }

  /** The signed string does not depend on the order in which the fields arrived. */
  lemma SignatureIgnoresFieldOrder(url: string, params: map<string, string>, k1: seq<string>, k2: seq<string>)
    requires IsKeyOrder(k1, params) && IsKeyOrder(k2, params)
    ensures SignatureString(url, params, k1) == SignatureString(url, params, k2)
  {
    KeyOrdersAgree(k1, k2, params);
    SortIgnoresOrder(k1, k2);
  }

  /** "From" sorts before "To", whichever arrives first. */
  lemma SignatureExample(url: string)
    ensures SignatureString(url, map["To" := "+2", "From" := "+1"], ["To", "From"]) == url + "From+1To+2"
  {
    var params := map["To" := "+2", "From" := "+1"];
    assert StrLe("From", "To");
    assert Sort(["To", "From"]) == Insert("To", Sort(["From"]));
    assert Sort(["From"]) == ["From"];
    assert Insert("To", ["From"]) == ["From"] + Insert("To", []);
    assert Sort(["To", "From"]) == ["From", "To"];
    assert KeyValues(["From", "To"], params) == "From+1" + ("To+2" + "");
  }

  /** An HMAC-SHA1 digest in base64: 28 characters. */
  type HmacBase64 = s: string | |s| == 28 witness seq(28, i => 'A')

  function ComputedSignature(url: string, params: map<string, string>, keys: seq<string>, secret: string,
                             hmac: (string, string) -> HmacBase64): HmacBase64
    requires IsKeyOrder(keys, params)
  {
    hmac(secret, SignatureString(url, params, keys))
  }

  /** The outcome of `crypto.timingSafeEqual`, which throws when the two buffers differ in length. */
  datatype Verdict = Accepted | Rejected | LengthMismatch

  /**
   * verifyTwilioSignature as written: accepted without a secret or without
   * a signature; otherwise the supplied signature is compared with the
   * computed one, and a signature of another length than 28 makes the
   * comparison throw.
   */
  function VerifyTwilioSignatureAsWritten(url: string, params: map<string, string>, keys: seq<string>,
                                          signature: string, secret: string, hmac: (string, string) -> HmacBase64): (v: Verdict)
    requires IsKeyOrder(keys, params)
    ensures secret == "" || signature == "" ==> v == Accepted
    ensures secret != "" && signature != "" ==>
              (v == LengthMismatch <==> |signature| != 28)
              && (v == Accepted <==> signature == ComputedSignature(url, params, keys, secret, hmac))
  {
    if secret == "" || signature == "" then Accepted
    else
      var computed := ComputedSignature(url, params, keys, secret, hmac);
      if |signature| != |computed| then LengthMismatch
      else if signature == computed then Accepted
      else Rejected
  }

  /** The check as intended: a signature of the wrong length is simply not the right one. */
  function VerifyTwilioSignature(url: string, params: map<string, string>, keys: seq<string>,
                                 signature: string, secret: string, hmac: (string, string) -> HmacBase64): (ok: bool)
    requires IsKeyOrder(keys, params)
    ensures ok <==> secret == "" || signature == "" || signature == ComputedSignature(url, params, keys, secret, hmac)
  {
    VerifyTwilioSignatureAsWritten(url, params, keys, signature, secret, hmac) == Accepted
  }

  /** With a secret set, a one-character signature makes the comparison throw instead of failing it. */
  lemma ShortSignatureThrows(url: string, params: map<string, string>, keys: seq<string>, secret: string,
                             hmac: (string, string) -> HmacBase64)
    requires IsKeyOrder(keys, params) && secret != ""
    ensures VerifyTwilioSignatureAsWritten(url, params, keys, "x", secret, hmac) == LengthMismatch
    ensures !VerifyTwilioSignature(url, params, keys, "x", secret, hmac)
  {
  }

  /** For signatures of the digest's length the written and the intended check agree. */
  lemma FullLengthSignaturesAgree(url: string, params: map<string, string>, keys: seq<string>, signature: string,
                                  secret: string, hmac: (string, string) -> HmacBase64)
    requires IsKeyOrder(keys, params) && |signature| == 28
    ensures VerifyTwilioSignatureAsWritten(url, params, keys, signature, secret, hmac) != LengthMismatch
    ensures VerifyTwilioSignatureAsWritten(url, params, keys, signature, secret, hmac) == Accepted
            <==> VerifyTwilioSignature(url, params, keys, signature, secret, hmac)
  {
  }

  // ---------------------------------------------------------------------------
  // POST /twilio/call
  // ---------------------------------------------------------------------------

  /** A field of the body, or "" when it is absent. */
  function Field(params: map<string, string>, name: string): (v: string)
    ensures name !in params ==> v == ""
    ensures name in params ==> v == params[name]
  {
    if name in params then params[name] else ""
  }

  /** `recordings/<date>/<CallSid>.wav` when a recording URL is given, else null. */
  function RecordingKey(recordingUrl: string, nowIso: string, callSid: string): (k: Option<string>)
    ensures k.None? <==> recordingUrl == ""
  {
    if recordingUrl != "" then Some("recordings/" + Split(nowIso, 'T')[0] + "/" + callSid + ".wav") else None
  }

  /** The key parses back into the directory, the date and the call's file name. */
  lemma RecordingKeyParses(recordingUrl: string, date: string, time: string, callSid: string)
    requires recordingUrl != "" && 'T' !in date && '/' !in date && '/' !in callSid
    ensures Split(RecordingKey(recordingUrl, date + "T" + time, callSid).value, '/') == ["recordings", date, callSid + ".wav"]
  {
    SplitCons(date, time, 'T');
    assert date + "T" + time == date + ['T'] + time;
    RecordingKeyIsJoin(date, callSid);
    SplitJoin(["recordings", date, callSid + ".wav"], '/');
  }

  lemma RecordingKeyIsJoin(date: string, callSid: string)
    ensures "recordings/" + date + "/" + callSid + ".wav" == Join(["recordings", date, callSid + ".wav"], '/')
  {
    var fs := ["recordings", date, callSid + ".wav"];
    assert fs[1..][1..] == [callSid + ".wav"];
    assert Join(fs[1..], '/') == date + ['/'] + (callSid + ".wav");
  }

  /** Calls get the trust score of an empty signal bundle: 50. */
  function CallTrustScore(): (s: real)
    ensures s == 50.0
  {
    TrustScore.ComputeTrustScore(Some(map[]))
  }

  /** The row the call webhook inserts. */
  function CallRow(eventId: string, params: map<string, string>, nowIso: string, dateOf: string -> string,
                   sha256: string -> Anonymize.Digest): (row: Events.EventRow)
    ensures row.id == eventId && row.source == "twilio" && row.sourceId == Field(params, "CallSid")
    ensures row.tenantId == "default" && row.eventType == "call" && row.trustScore == 50.0
    ensures row.sender == Anonymize.AnonymizePhone(Field(params, "From"), "", sha256)
    ensures row.recipients == [Anonymize.AnonymizePhone(Field(params, "To"), "", sha256)]
    ensures row.recordingKey.None? <==> Field(params, "RecordingUrl") == ""
    ensures row.subject.None? && row.bodyPreview.None? && row.attachmentKeys == [] && row.actions.None?
  {
    var timestamp := if Field(params, "Timestamp") != "" then dateOf(Field(params, "Timestamp")) else nowIso;
    Events.EventRow(
      eventId, "twilio", Field(params, "CallSid"), "default", "call", timestamp,
      Anonymize.AnonymizePhone(Field(params, "From"), "", sha256),
      [Anonymize.AnonymizePhone(Field(params, "To"), "", sha256)],
      None, None, [],
      RecordingKey(Field(params, "RecordingUrl"), nowIso, Field(params, "CallSid")),
      CallTrustScore(), None, None)
  }

  datatype CallResponse = InvalidSignature | CallRecorded(eventId: string)

  /**
   * The call webhook: 401 when the signature check fails; otherwise one
   * row under the fresh event id. There is no duplicate check: a
   * redelivered call is stored again under a new id.
   */
  method HandleTwilioCall(table: Events.EventTable, url: string, params: map<string, string>, keys: seq<string>,
                          signature: string, secret: string, hmac: (string, string) -> HmacBase64,
                          eventId: string, nowIso: string, dateOf: string -> string, sha256: string -> Anonymize.Digest)
    returns (response: CallResponse)
    requires IsKeyOrder(keys, params)
    requires table.Valid() && eventId !in table.rows
    modifies table
    ensures table.Valid()
    ensures !VerifyTwilioSignature(url, params, keys, signature, secret, hmac) ==>
              response == InvalidSignature && table.rows == old(table.rows)
    ensures VerifyTwilioSignature(url, params, keys, signature, secret, hmac) ==>
              response == CallRecorded(eventId)
              && table.rows == old(table.rows)[eventId := CallRow(eventId, params, nowIso, dateOf, sha256)]
  {
    if !VerifyTwilioSignature(url, params, keys, signature, secret, hmac) {
      return InvalidSignature;
    }
    table.Insert(CallRow(eventId, params, nowIso, dateOf, sha256));
    response := CallRecorded(eventId);
  }

  // ---------------------------------------------------------------------------
  // POST /gmail/push
  // ---------------------------------------------------------------------------

  /** The decoded Pub/Sub data; a missing field is "". */
  datatype Notification = Notification(emailAddress: string, historyId: string)

  datatype PushAction =
    | GmailNotConfigured
    | InvalidMessage
    | DecodeFailed
    | PollAfter(query: string, maxResults: nat)
    | ProcessMessage(messageId: string)
    | InvalidNotification

  /**
   * Which action a push leads to: 503 without the Gmail utilities; 400
   * without a message; 500 when its data does not decode to JSON; a poll
   * for messages after the history id when the data names both an address
   * and a history id; otherwise the body's message id is processed, or 400
   * without one.
   */
  function GmailPushAction(available: bool, messageData: Option<string>, parse: string -> Option<Notification>,
                           bodyMessageId: string): (r: PushAction)
    ensures r == GmailNotConfigured <==> !available
    ensures r == InvalidMessage <==> available && messageData.None?
    ensures r == DecodeFailed <==> available && messageData.Some? && parse(messageData.value).None?
    ensures r.PollAfter? <==> available && messageData.Some? && parse(messageData.value).Some?
                              && parse(messageData.value).value.emailAddress != ""
                              && parse(messageData.value).value.historyId != ""
    ensures r.PollAfter? ==> r.query == "after:" + parse(messageData.value).value.historyId && r.maxResults == 50
    ensures r.ProcessMessage? <==> available && messageData.Some? && parse(messageData.value).Some?
                                   && !r.PollAfter? && bodyMessageId != ""
    ensures r.ProcessMessage? ==> r.messageId == bodyMessageId
    ensures r == InvalidNotification <==> available && messageData.Some? && parse(messageData.value).Some?
                                          && !r.PollAfter? && bodyMessageId == ""
  {
    if !available then GmailNotConfigured
    else if messageData.None? then InvalidMessage
    else
      match parse(messageData.value)
      case None => DecodeFailed
      case Some(n) =>
        if n.emailAddress != "" && n.historyId != "" then PollAfter("after:" + n.historyId, 50)
        else if bodyMessageId != "" then ProcessMessage(bodyMessageId)
        else InvalidNotification
  }

  /** A notification with both an address and a history id never processes the body's message id. */
  lemma HistoryWinsOverMessageId(messageData: string, parse: string -> Option<Notification>, bodyMessageId: string)
    requires parse(messageData).Some? && parse(messageData).value.emailAddress != "" && parse(messageData).value.historyId != ""
    ensures GmailPushAction(true, Some(messageData), parse, bodyMessageId).PollAfter?
    ensures !GmailPushAction(true, Some(messageData), parse, bodyMessageId).ProcessMessage?
  {
  }
}
