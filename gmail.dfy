/**
 * backend/utils/gmail.js: turning one fetched Gmail message into an `events`
 * row: header lookup, recipient parsing, the body preview taken from the MIME
 * tree, the attachments collected from it, their storage keys, the fixed
 * trust score, and the duplicate check before the insert.
 *
 * The Gmail API, OAuth and object storage are not modelled. Base64 decoding
 * is the parameter `decode`, SHA-256 (for recipient aliases) is `sha256`,
 * whether an attachment download and upload succeeds is `downloadOk`, and the
 * clock is `nowIso`. A missing `body.data`, `filename` or `attachmentId` is
 * the empty string, which the source treats the same way (falsy).
 */
module Gmail {
  import opened Wrappers
  import opened Text
  import Anonymize
  import TrustScore
  import Events

  // ---------------------------------------------------------------------------
  // Headers and recipients
  // ---------------------------------------------------------------------------

  datatype Header = Header(name: string, value: string)

  /** Whether a header carries `name`, compared without regard to letter case. */
  predicate NameMatches(h: Header, name: string) {
    Lower(h.name) == Lower(name)
  }

  /** getHeader: the value of the first header whose name matches case-insensitively, or "" when none does. */
  function GetHeader(headers: seq<Header>, name: string): (r: string)
    ensures (forall i :: 0 <= i < |headers| ==> !NameMatches(headers[i], name)) ==> r == ""
    ensures forall i :: 0 <= i < |headers| && NameMatches(headers[i], name)
                        && (forall j :: 0 <= j < i ==> !NameMatches(headers[j], name))
                        ==> r == headers[i].value
    decreases |headers|
  {
    if headers == [] then ""
    else if NameMatches(headers[0], name) then headers[0].value
    else GetHeader(headers[1..], name)
  }

  /** Asking for "from", "FROM" or "From" finds the same header. */
  lemma GetHeaderIgnoresCase(headers: seq<Header>, a: string, b: string)
    requires Lower(a) == Lower(b)
    ensures GetHeader(headers, a) == GetHeader(headers, b)
  {
    if exists i :: 0 <= i < |headers| && NameMatches(headers[i], a) {
      var i := FirstMatch(headers, a);
      assert forall j :: 0 <= j < |headers| ==> (NameMatches(headers[j], a) <==> NameMatches(headers[j], b));
    }
  }

  /** The index of the first matching header, when there is one. */
  function FirstMatch(headers: seq<Header>, name: string): (i: nat)
    requires exists i :: 0 <= i < |headers| && NameMatches(headers[i], name)
    ensures i < |headers| && NameMatches(headers[i], name)
    ensures forall j :: 0 <= j < i ==> !NameMatches(headers[j], name)
    decreases |headers|
  {
    if NameMatches(headers[0], name) then 0
    else
      assert exists i :: 0 <= i < |headers[1..]| && NameMatches(headers[1..][i], name) by {
        var k :| 0 <= k < |headers| && NameMatches(headers[k], name);
        assert NameMatches(headers[1..][k - 1], name);
      }
      1 + FirstMatch(headers[1..], name)
  }

  /** An entry as `trim` leaves it: non-empty, with no white space at either end. */
  predicate Trimmed(x: string) {
    x != "" && !IsSpace(x[0]) && !IsSpace(x[|x| - 1])
  }

  /** The trimmed, non-empty entries of a comma split, in order. */
  function CleanEntries(parts: seq<string>): (r: seq<string>)
    ensures |r| <= |parts|
    ensures forall k :: 0 <= k < |r| ==> Trimmed(r[k])
    decreases |parts|
  {
    if parts == [] then [] else CleanEntry(parts[0]) + CleanEntries(parts[1..])
  }

  /** One entry after `trim` and `filter(Boolean)`: the trimmed entry, or nothing when it is blank. */
  function CleanEntry(p: string): (r: seq<string>)
    ensures |r| <= 1
    ensures forall k :: 0 <= k < |r| ==> Trimmed(r[k]) && r[k] == Trim(p)
  {
    var t := Trim(p);
    if t == "" then [] else [t]
  }

  /** An entry survives exactly when it trims to something non-empty, and then as its trimmed form. */
  lemma {:induction false} CleanEntriesMembers(parts: seq<string>, x: string)
    ensures x in CleanEntries(parts) <==> x != "" && exists p :: p in parts && Trim(p) == x
    decreases |parts|
  {
    if parts != [] {
      CleanEntriesMembers(parts[1..], x);
      assert forall p :: p in parts <==> p == parts[0] || p in parts[1..];
    }
  }

  /** A character that no part holds is in no entry: `trim` only removes characters. */
  lemma {:induction false} CleanEntriesAvoid(parts: seq<string>, c: char)
    requires forall k :: 0 <= k < |parts| ==> c !in parts[k]
    ensures forall k :: 0 <= k < |CleanEntries(parts)| ==> c !in CleanEntries(parts)[k]
    decreases |parts|
  {
    if parts != [] {
      var p := parts[0];
      assert c !in TrimStart(p) by {
        assert TrimStart(p) == p[|p| - |TrimStart(p)|..];
      }
      assert c !in Trim(p) by {
        assert Trim(p) == TrimStart(p)[..|Trim(p)|];
      }
      CleanEntriesAvoid(parts[1..], c);
    }
  }

  lemma {:induction false} CleanEntriesConcat(a: seq<string>, b: seq<string>)
    ensures CleanEntries(a + b) == CleanEntries(a) + CleanEntries(b)
    decreases |a|
  {
    if a != [] {
      assert (a + b)[0] == a[0];
      assert (a + b)[1..] == a[1..] + b;
      CleanEntriesConcat(a[1..], b);
      assert CleanEntries(a + b) == CleanEntry(a[0]) + (CleanEntries(a[1..]) + CleanEntries(b));
    } else {
      assert a + b == b;
    }
  }

  /** `[to, cc].filter(Boolean).join(',')` */
  function JoinedAddresses(to: string, cc: string): string {
    if to != "" && cc != "" then to + [','] + cc
    else if to != "" then to
    else cc
  }

  /** The recipient list: To and Cc joined by ',', split on ',', each entry trimmed, empty entries dropped. */
  function Recipients(to: string, cc: string): (r: seq<string>)
    ensures forall k :: 0 <= k < |r| ==> Trimmed(r[k]) && ',' !in r[k]
  {
    SplitPartsFree(JoinedAddresses(to, cc), ',');
    CleanEntriesAvoid(Split(JoinedAddresses(to, cc), ','), ',');
    CleanEntries(Split(JoinedAddresses(to, cc), ','))
  }

  /** The recipients are the To entries followed by the Cc entries, each list parsed on its own. */
  lemma RecipientsAreToThenCc(to: string, cc: string)
    ensures Recipients(to, cc) == CleanEntries(Split(to, ',')) + CleanEntries(Split(cc, ','))
  {
    if to != "" && cc != "" {
      SplitConcat(to, cc, ',');
      CleanEntriesConcat(Split(to, ','), Split(cc, ','));
    } else {
      SplitNoSep("", ',');
      assert CleanEntries([""]) == [] by {
        assert Trim("") == "";
      }
      if to == "" {
        assert CleanEntries(Split(to, ',')) == [];
      } else {
        assert CleanEntries(Split(cc, ',')) == [];
      }
    }
  }

  // ---------------------------------------------------------------------------
  // The MIME tree
  // ---------------------------------------------------------------------------

  /**
   * A MIME part: its type, file name, `body.data`, `body.attachmentId`, and
   * sub-parts. Below the payload a missing `parts` array and an empty one
   * take the same path in both walks, so both are the empty sequence.
   */
  datatype Part = Part(mimeType: string, filename: string, bodyData: string, attachmentId: string, parts: seq<Part>)

  const PlainText: string := "text/plain"
  const HtmlText: string := "text/html"
  const PreviewLength: nat := 500

  /** `html.replace(/<[^>]*>/g, '')`: every '<' with a later '>' starts a tag that runs to the first such '>'. */
  function StripTags(s: string): (r: string)
    ensures |r| <= |s|
    ensures forall c :: c in r ==> c in s
    ensures '<' !in s ==> r == s
    ensures forall i :: 0 <= i < |r| && r[i] == '<' ==> '>' !in r[i + 1..]
    decreases |s|
  {
    if s == [] then []
    else if s[0] == '<' && '>' in s[1..] then
      var t := s[1..];
      StripTags(t[IndexOf(t, '>') + 1..])
    else
      var rest := StripTags(s[1..]);
      var r := [s[0]] + rest;
      assert forall i :: 1 <= i < |r| ==> r[i + 1..] == rest[i..];
      assert r[1..] == rest;
      r
  }

  /** The index of the first part of this type with body data, or |ps| when there is none. */
  function FindPart(ps: seq<Part>, mimeType: string): (i: nat)
    ensures i <= |ps|
    ensures i < |ps| ==> ps[i].mimeType == mimeType && ps[i].bodyData != ""
    ensures forall j :: 0 <= j < i ==> !(ps[j].mimeType == mimeType && ps[j].bodyData != "")
    decreases |ps|
  {
    if ps == [] then 0
    else if ps[0].mimeType == mimeType && ps[0].bodyData != "" then 0
    else 1 + FindPart(ps[1..], mimeType)
  }

  /**
   * extractBodyFromParts on an array of parts: the first plain-text part
   * with data, decoded; else the first HTML part with data, decoded,
   * stripped of tags and cut to 500 characters; else the first non-empty
   * result from the sub-parts of a part, in part order; else "".
   */
  function ExtractBody(ps: seq<Part>, decode: string -> string): (r: string)
    ensures FindPart(ps, PlainText) < |ps| ==> r == decode(ps[FindPart(ps, PlainText)].bodyData)
    ensures FindPart(ps, PlainText) == |ps| && FindPart(ps, HtmlText) < |ps| ==>
              r == Take(StripTags(decode(ps[FindPart(ps, HtmlText)].bodyData)), PreviewLength) && |r| <= PreviewLength
    decreases ps, 1
  {
    var p := FindPart(ps, PlainText);
    if p < |ps| then decode(ps[p].bodyData)
    else
      var h := FindPart(ps, HtmlText);
      if h < |ps| then Take(StripTags(decode(ps[h].bodyData)), PreviewLength)
      else NestedBody(ps, 0, decode)
  }

  /**
   * The third loop of extractBodyFromParts, from part `i` on: the first
   * non-empty result of a part's sub-parts, in part order, or "" when all
   * of them are empty.
   */
  function NestedBody(ps: seq<Part>, i: nat, decode: string -> string): (r: string)
    requires i <= |ps|
    ensures r == "" <==> forall j :: i <= j < |ps| ==> ExtractBody(ps[j].parts, decode) == ""
    ensures r != "" ==> exists j :: i <= j < |ps| && r == ExtractBody(ps[j].parts, decode)
                                    && forall l :: i <= l < j ==> ExtractBody(ps[l].parts, decode) == ""
    decreases ps, 0, |ps| - i
  {
    if i == |ps| then ""
    else if ExtractBody(ps[i].parts, decode) != "" then ExtractBody(ps[i].parts, decode)
    else NestedBody(ps, i + 1, decode)
  }

  /**
   * With no plain-text or HTML part with data at this level, the body is the
   * first non-empty body of a part's sub-parts, in part order, or "" when
   * every part's sub-parts give "".
   */
  lemma NestedPriority(ps: seq<Part>, decode: string -> string)
    requires FindPart(ps, PlainText) == |ps| && FindPart(ps, HtmlText) == |ps|
    ensures var r := ExtractBody(ps, decode);
            && (r == "" <==> forall j :: 0 <= j < |ps| ==> ExtractBody(ps[j].parts, decode) == "")
            && (r != "" ==> exists j :: 0 <= j < |ps| && r == ExtractBody(ps[j].parts, decode)
                                        && forall l :: 0 <= l < j ==> ExtractBody(ps[l].parts, decode) == "")
  {
  }

  /** `if (!parts) return ''` */
  function ExtractBodyFromParts(parts: Option<seq<Part>>, decode: string -> string): (r: string)
    ensures parts.None? ==> r == ""
    ensures parts.Some? ==> r == ExtractBody(parts.value, decode)
  {
    match parts
    case None => ""
    case Some(ps) => ExtractBody(ps, decode)
  }

  /** Every part of the tree, each before its sub-parts, in document (pre-)order. */
  function Flatten(ps: seq<Part>): seq<Part>
    decreases ps
  {
    if ps == [] then []
    else
      var last := ps[|ps| - 1];
      Flatten(ps[..|ps| - 1]) + [last] + Flatten(last.parts)
  }

  /** Whether `r` is what the body extraction makes of the text part `p`. */
  predicate TextOf(r: string, p: Part, decode: string -> string) {
    p.bodyData != ""
    && ((p.mimeType == PlainText && r == decode(p.bodyData))
        || (p.mimeType == HtmlText && r == Take(StripTags(decode(p.bodyData)), PreviewLength)))
  }

  lemma {:induction false} FlattenHasTop(ps: seq<Part>, i: nat)
    requires i < |ps|
    ensures ps[i] in Flatten(ps)
    ensures forall q :: q in Flatten(ps[i].parts) ==> q in Flatten(ps)
    decreases ps
  {
    var n := |ps| - 1;
    if i < n {
      assert ps[..n][i] == ps[i];
      FlattenHasTop(ps[..n], i);
    } else {
      assert ps[i] == ps[n];
    }
  }

  /**
   * A non-empty body preview always comes from one text part somewhere in
   * the tree: it is that part's decoded text, or, for HTML, its stripped
   * and shortened text.
   */
  lemma {:induction false} BodyComesFromATextPart(ps: seq<Part>, decode: string -> string)
    ensures var r := ExtractBody(ps, decode);
            r == "" || exists q :: q in Flatten(ps) && TextOf(r, q, decode)
    decreases ps, 1
  {
    var r := ExtractBody(ps, decode);
    var p := FindPart(ps, PlainText);
    if p < |ps| {
      FlattenHasTop(ps, p);
      assert TextOf(r, ps[p], decode);
    } else {
      var h := FindPart(ps, HtmlText);
      if h < |ps| {
        FlattenHasTop(ps, h);
        assert TextOf(r, ps[h], decode);
      } else {
        NestedComesFromATextPart(ps, 0, decode);
      }
    }
  }

  lemma {:induction false} NestedComesFromATextPart(ps: seq<Part>, i: nat, decode: string -> string)
    requires i <= |ps|
    ensures var r := NestedBody(ps, i, decode);
            r == "" || exists q :: q in Flatten(ps) && TextOf(r, q, decode)
    decreases ps, 0, |ps| - i
  {
    if i < |ps| {
      var r := NestedBody(ps, i, decode);
      if ExtractBody(ps[i].parts, decode) != "" {
        BodyComesFromATextPart(ps[i].parts, decode);
        FlattenHasTop(ps, i);
      } else {
        NestedComesFromATextPart(ps, i + 1, decode);
      }
    }
  }

  /** A tree without any text part that has data yields an empty body. */
  lemma {:induction false} NoTextNoBody(ps: seq<Part>, decode: string -> string)
    requires forall q :: q in Flatten(ps) ==> q.bodyData == "" || (q.mimeType != PlainText && q.mimeType != HtmlText)
    ensures ExtractBody(ps, decode) == ""
    decreases ps, 1
  {
    forall i | 0 <= i < |ps| ensures ps[i] in Flatten(ps) {
      FlattenHasTop(ps, i);
    }
    NoTextNoNested(ps, 0, decode);
  }

  lemma {:induction false} NoTextNoNested(ps: seq<Part>, i: nat, decode: string -> string)
    requires i <= |ps|
    requires forall q :: q in Flatten(ps) ==> q.bodyData == "" || (q.mimeType != PlainText && q.mimeType != HtmlText)
    ensures NestedBody(ps, i, decode) == ""
    decreases ps, 0, |ps| - i
  {
    if i < |ps| {
      FlattenHasTop(ps, i);
      NoTextNoBody(ps[i].parts, decode);
      NoTextNoNested(ps, i + 1, decode);
    }
  }

  /**
   * The body preview: the snippet when there is one; otherwise, when the
   * payload has a parts array (even an empty one), the extracted body cut
   * to 500 characters; otherwise the payload's own body data, decoded and
   * cut to 500 characters; otherwise "".
   */
  function BodyPreview(snippet: string, payloadParts: Option<seq<Part>>, payloadData: string, decode: string -> string): (r: string)
    ensures snippet != "" ==> r == snippet
    ensures snippet == "" ==> |r| <= PreviewLength
    ensures snippet == "" && payloadParts.Some? ==> r == Take(ExtractBody(payloadParts.value, decode), PreviewLength)
    ensures snippet == "" && payloadParts.None? && payloadData == "" ==> r == ""
  {
    if snippet == "" && payloadParts.Some? then Take(ExtractBodyFromParts(payloadParts, decode), PreviewLength)
    else if payloadData != "" && snippet == "" then Take(decode(payloadData), PreviewLength)
    else snippet
  }

  // ---------------------------------------------------------------------------
  // Attachments
  // ---------------------------------------------------------------------------

  /** `part.filename && part.body?.attachmentId` */
  predicate IsAttachment(p: Part) {
    p.filename != "" && p.attachmentId != ""
  }

  /** The attachment parts of a list, in order. */
  function KeepAttachments(ps: seq<Part>): (r: seq<Part>)
    ensures |r| <= |ps|
    ensures forall k :: 0 <= k < |r| ==> IsAttachment(r[k])
    decreases |ps|
  {
    if ps == [] then []
    else
      var n := |ps| - 1;
      KeepAttachments(ps[..n]) + (if IsAttachment(ps[n]) then [ps[n]] else [])
  }

  /** A part is kept exactly when it is in the list and is an attachment. */
  lemma {:induction false} KeepAttachmentsMembers(ps: seq<Part>, q: Part)
    ensures q in KeepAttachments(ps) <==> q in ps && IsAttachment(q)
    decreases |ps|
  {
    if ps != [] {
      var n := |ps| - 1;
      KeepAttachmentsMembers(ps[..n], q);
      assert ps == ps[..n] + [ps[n]];
      assert q in ps <==> q in ps[..n] || q == ps[n];
    }
  }

  lemma {:induction false} KeepAttachmentsConcat(a: seq<Part>, b: seq<Part>)
    ensures KeepAttachments(a + b) == KeepAttachments(a) + KeepAttachments(b)
    decreases |b|
  {
    if b != [] {
      var n := |b| - 1;
      assert (a + b)[..|a + b| - 1] == a + b[..n];
      KeepAttachmentsConcat(a, b[..n]);
    } else {
      assert a + b == a;
    }
  }

  /** The attachments of a tree: every part at any depth with a file name and an attachment id, in document order. */
  function AttachmentsOf(ps: seq<Part>): (r: seq<Part>)
    ensures forall k :: 0 <= k < |r| ==> IsAttachment(r[k])
  {
    KeepAttachments(Flatten(ps))
  }

  /** A part is collected exactly when it sits somewhere in the tree and has a file name and an attachment id. */
  lemma AttachmentsAreTreeParts(ps: seq<Part>, q: Part)
    ensures q in AttachmentsOf(ps) <==> q in Flatten(ps) && IsAttachment(q)
  {
    KeepAttachmentsMembers(Flatten(ps), q);
  }

  /** Adding one more top-level part adds its own attachment, then those below it. */
  lemma AttachmentsStep(ps: seq<Part>, i: nat)
    requires i < |ps|
    ensures AttachmentsOf(ps[..i + 1])
            == AttachmentsOf(ps[..i]) + (if IsAttachment(ps[i]) then [ps[i]] else [])
               + AttachmentsOf(ps[i].parts)
  {
    var pre := ps[..i + 1];
    assert pre[..|pre| - 1] == ps[..i];
    var nested := Flatten(ps[i].parts);
    assert Flatten(pre) == Flatten(ps[..i]) + [ps[i]] + nested;
    KeepAttachmentsConcat(Flatten(ps[..i]) + [ps[i]], nested);
    KeepAttachmentsConcat(Flatten(ps[..i]), [ps[i]]);
    assert [ps[i]][..0] == [];
  }

  /** The `attachmentParts` array that extractAttachmentsFromParts pushes onto. */
  class AttachmentCollector {
    var attachmentParts: seq<Part>

    constructor ()
      ensures attachmentParts == []
    {
      attachmentParts := [];
    }

    /** Pushes every attachment of the tree, depth first, each part before its sub-parts. */
    method ExtractAttachmentsFromParts(ps: seq<Part>)
      modifies this
      ensures attachmentParts == old(attachmentParts) + AttachmentsOf(ps)
      decreases ps
    {
      var i := 0;
      while i < |ps|
        invariant 0 <= i <= |ps|
        invariant attachmentParts == old(attachmentParts) + AttachmentsOf(ps[..i])
      {
        var part := ps[i];
        ghost var before := attachmentParts;
        if IsAttachment(part) {
          attachmentParts := attachmentParts + [part];
        }
        ghost var own := if IsAttachment(part) then [part] else [];
        assert attachmentParts == before + own;
        ExtractAttachmentsFromParts(part.parts);
        AttachmentsStep(ps, i);
        assert attachmentParts == old(attachmentParts) + (AttachmentsOf(ps[..i]) + own + AttachmentsOf(part.parts));
        i := i + 1;
      }
      assert ps[..|ps|] == ps;
    }
  }

  const AttachmentsPrefix: string := "attachments/"

  /** `attachments/${new Date().toISOString().split('T')[0]}/${messageId}/${filename}` */
  function AttachmentKey(nowIso: string, messageId: string, filename: string): (k: string)
    ensures StartsWith(k, AttachmentsPrefix)
  {
    AttachmentsPrefix + Split(nowIso, 'T')[0] + "/" + messageId + "/" + filename
  }

  /**
   * The key parses back: for an ISO instant "date T time" and a message id
   * and file name without '/', splitting the key on '/' gives
   * "attachments", the date, the message id and the file name.
   */
  lemma AttachmentKeyParses(date: string, time: string, messageId: string, filename: string)
    requires 'T' !in date && '/' !in date && '/' !in messageId && '/' !in filename
    ensures Split(AttachmentKey(date + "T" + time, messageId, filename), '/') == ["attachments", date, messageId, filename]
  {
    DateOfInstant(date, time);
    KeyIsJoin(date, messageId, filename);
    SplitJoin(["attachments", date, messageId, filename], '/');
  }

  /** The key is its four fields joined by '/'. */
  lemma KeyIsJoin(date: string, messageId: string, filename: string)
    ensures AttachmentsPrefix + date + "/" + messageId + "/" + filename == Join(["attachments", date, messageId, filename], '/')
  {
    var fs := ["attachments", date, messageId, filename];
    assert fs[1..][1..][1..] == [filename];
    assert Join(fs[1..][1..], '/') == messageId + ['/'] + filename;
    assert Join(fs[1..], '/') == date + ['/'] + (messageId + ['/'] + filename);
  }

  /** `toISOString().split('T')[0]` of "dateTtime" is the date. */
  lemma DateOfInstant(date: string, time: string)
    requires 'T' !in date
    ensures Split(date + "T" + time, 'T')[0] == date
  {
    SplitCons(date, time, 'T');
    assert date + "T" + time == date + ['T'] + time;
  }

  /** The keys of the attachments whose download and upload succeeded, in order. */
  function UploadedKeys(atts: seq<Part>, nowIso: string, messageId: string, downloadOk: Part -> bool): (keys: seq<string>)
    ensures |keys| <= |atts|
    ensures forall k :: k in keys ==> exists a :: a in atts && downloadOk(a) && k == AttachmentKey(nowIso, messageId, a.filename)
    decreases |atts|
  {
    if atts == [] then []
    else
      var n := |atts| - 1;
      var rest := UploadedKeys(atts[..n], nowIso, messageId, downloadOk);
      assert forall a :: a in atts[..n] ==> a in atts;
      rest + (if downloadOk(atts[n]) then [AttachmentKey(nowIso, messageId, atts[n].filename)] else [])
  }

  /** The download loop: a failed download is skipped, every other attachment contributes its key. */
  method DownloadAttachments(atts: seq<Part>, nowIso: string, messageId: string, downloadOk: Part -> bool)
    returns (keys: seq<string>)
    ensures keys == UploadedKeys(atts, nowIso, messageId, downloadOk)
    ensures (forall a :: a in atts ==> downloadOk(a)) ==> |keys| == |atts|
  {
    keys := [];
    var i := 0;
    while i < |atts|
      invariant 0 <= i <= |atts|
      invariant keys == UploadedKeys(atts[..i], nowIso, messageId, downloadOk)
      invariant (forall a :: a in atts ==> downloadOk(a)) ==> |keys| == i
    {
      assert atts[..i + 1][..i] == atts[..i];
      if downloadOk(atts[i]) {
        keys := keys + [AttachmentKey(nowIso, messageId, atts[i].filename)];
      }
      i := i + 1;
    }
    assert atts[..|atts|] == atts;
  }

  // ---------------------------------------------------------------------------
  // processGmailMessage
  // ---------------------------------------------------------------------------

  /** The parts of a fetched message the event is built from. */
  datatype Message = Message(
    headers: seq<Header>,
    snippet: string,
    payloadParts: Option<seq<Part>>,
    payloadData: string,
    internalDate: string)

  /** The fixed signals every Gmail event is scored with. */
  const GmailSignals: TrustScore.Signals :=
    map["spfPass" := TrustScore.Bool(true), "dkimPass" := TrustScore.Bool(true), "senderVerified" := TrustScore.Bool(false)]

  /** Every Gmail event gets trust score 50. */
  function GmailTrustScore(): (s: real)
    ensures s == 50.0
  {
    TrustScore.GmailBundleIsNeutral();
    TrustScore.ComputeTrustScore(Some(GmailSignals))
  }

  datatype ProcessOutcome = ClientNotConfigured | AlreadyProcessed | Inserted(row: Events.EventRow)

  /** The event row built for a message, given its uploaded attachment keys. */
  function GmailRow(eventId: string, messageId: string, m: Message, keys: seq<string>, timestamp: string,
                    decode: string -> string, sha256: string -> Anonymize.Digest): (row: Events.EventRow)
    ensures row.id == eventId && row.source == "gmail" && row.sourceId == messageId
    ensures row.tenantId == "default" && row.eventType == "email" && row.trustScore == 50.0
    ensures row.sender == Anonymize.AnonymizeEmail(GetHeader(m.headers, "From"), "", "")
    ensures row.recipients == Anonymize.AnonymizeRecipients(Some(Recipients(GetHeader(m.headers, "To"), GetHeader(m.headers, "Cc"))), sha256)
    ensures row.subject == Events.NullIfEmpty(GetHeader(m.headers, "Subject"))
    ensures row.bodyPreview == Events.NullIfEmpty(BodyPreview(m.snippet, m.payloadParts, m.payloadData, decode))
    ensures row.attachmentKeys == keys && row.recordingKey.None? && row.actions.None?
  {
    Events.EventRow(
      eventId, "gmail", messageId, "default", "email", timestamp,
      Anonymize.AnonymizeEmail(GetHeader(m.headers, "From"), "", ""),
      Anonymize.AnonymizeRecipients(Some(Recipients(GetHeader(m.headers, "To"), GetHeader(m.headers, "Cc"))), sha256),
      Events.NullIfEmpty(GetHeader(m.headers, "Subject")),
      Events.NullIfEmpty(BodyPreview(m.snippet, m.payloadParts, m.payloadData, decode)),
      keys, None, GmailTrustScore(), None, None)
  }

  /**
   * processGmailMessage: fails without a client; returns nothing and
   * inserts nothing when the message id is already recorded for source
   * "gmail"; otherwise inserts one row under the fresh event id whose
   * attachment keys are those of the attachments that uploaded. Either way
   * the message is recorded afterwards, so a second delivery is ignored.
   */
  method ProcessGmailMessage(table: Events.EventTable, clientConfigured: bool, messageId: string, m: Message,
                             eventId: string, nowIso: string, dateOf: string -> string,
                             downloadOk: Part -> bool, decode: string -> string, sha256: string -> Anonymize.Digest)
    returns (outcome: ProcessOutcome)
    requires table.Valid() && eventId !in table.rows
    modifies table
    ensures table.Valid()
    ensures !clientConfigured ==> outcome == ClientNotConfigured && table.rows == old(table.rows)
    ensures clientConfigured && Events.Recorded(old(table.rows), "gmail", messageId) ==>
              outcome == AlreadyProcessed && table.rows == old(table.rows)
    ensures clientConfigured && !Events.Recorded(old(table.rows), "gmail", messageId) ==>
              && outcome.Inserted?
              && outcome.row == GmailRow(eventId, messageId, m,
                   UploadedKeys(AttachmentsOf(m.payloadParts.GetOr([])), nowIso, messageId, downloadOk),
                   if m.internalDate != "" then dateOf(m.internalDate) else nowIso, decode, sha256)
              && table.rows == old(table.rows)[eventId := outcome.row]
    ensures clientConfigured ==> Events.Recorded(table.rows, "gmail", messageId)
  {
    if !clientConfigured {
      return ClientNotConfigured;
    }
    if Events.Recorded(table.rows, "gmail", messageId) {
      return AlreadyProcessed;
    }
    var collector := new AttachmentCollector();
    if m.payloadParts.Some? {
      collector.ExtractAttachmentsFromParts(m.payloadParts.value);
    }
    assert collector.attachmentParts == AttachmentsOf(m.payloadParts.GetOr([]));
    var keys := DownloadAttachments(collector.attachmentParts, nowIso, messageId, downloadOk);
    var timestamp := if m.internalDate != "" then dateOf(m.internalDate) else nowIso;
    var row := GmailRow(eventId, messageId, m, keys, timestamp, decode, sha256);
    table.Insert(row);
    assert table.rows[eventId].source == "gmail" && table.rows[eventId].sourceId == messageId;
    outcome := Inserted(row);
  }
}
