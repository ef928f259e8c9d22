/**
 * backend/utils/anonymize.js: display strings that stand in for e-mail
 * addresses and phone numbers in stored events.
 *
 * An absent argument (`null`, `undefined`) and the empty string are both
 * falsy there and take the same branches, so both are the empty string here.
 * SHA-256 is a parameter returning a 64-character lowercase hex digest.
 */
module Anonymize {
  import opened Wrappers
  import opened Text

  predicate IsHexChar(c: char) {
    '0' <= c <= '9' || 'a' <= c <= 'f'
  }

  /** A SHA-256 digest in lowercase hex, as `digest('hex')` prints it. */
  type Digest = d: string | |d| == 64 && forall i :: 0 <= i < |d| ==> IsHexChar(d[i])
    witness seq(64, i => '0')

  const AliasPrefix: string := "alias_"

  /** generateAlias: "alias_" and the first 4 hex digits of the hash of the lowercased input; "alias_0000" for no input. */
  function GenerateAlias(input: string, sha256: string -> Digest): (r: string)
    ensures |r| == 10 && r[..6] == AliasPrefix
    ensures input == "" ==> r == "alias_0000"
    ensures input != "" ==> r[6..] == sha256(Lower(input))[..4]
    ensures forall i :: 6 <= i < |r| ==> IsHexChar(r[i])
  {
    if input == "" then "alias_0000" else AliasPrefix + sha256(Lower(input))[..4]
  }

  /** Inputs that differ only in letter case get the same alias. */
  lemma AliasIgnoresCase(a: string, b: string, sha256: string -> Digest)
    requires Lower(a) == Lower(b)
    ensures GenerateAlias(a, sha256) == GenerateAlias(b, sha256)
  {
    assert |a| == |Lower(a)| == |Lower(b)| == |b|;
  }

  /** `email.split('@')[0] || 'user'` */
  function LocalPart(email: string): (l: string)
    ensures l != "" && '@' !in l
    ensures l == email[..IndexOf(email, '@')] || (l == "user" && IndexOf(email, '@') == 0)
  {
    var head := Split(email, '@')[0];
    if head == "" then "user" else head
  }

  /**
   * anonymizeEmail: "redacted@redacted" without an address; "name (org)"
   * when both are given; the name when only it is given; otherwise the
   * local part (or "user") at "redacted".
   */
  function AnonymizeEmail(email: string, displayName: string, org: string): (r: string)
    ensures email == "" ==> r == "redacted@redacted"
    ensures email != "" && displayName != "" && org != "" ==> r == displayName + " (" + org + ")"
    ensures email != "" && displayName != "" && org == "" ==> r == displayName
    ensures email != "" && displayName == "" ==> r == LocalPart(email) + "@redacted"
    ensures displayName == "" ==> '@' in r
  {
    if email == "" then "redacted@redacted"
    else if displayName != "" && org != "" then displayName + " (" + org + ")"
    else
      var localPart := LocalPart(email);
      if displayName != "" then displayName
      else
        assert (localPart + "@redacted")[|localPart|] == '@';
        localPart + "@redacted"
  }

  /** The local part of "l@redacted" is `l` again when `l` is a non-empty string without '@'. */
  lemma LocalPartOfRedacted(l: string)
    requires l != "" && '@' !in l
    ensures LocalPart(l + "@redacted") == l
  {
    var s := l + "@redacted";
    assert s[|l|] == '@';
    assert forall j :: 0 <= j < |l| ==> s[j] == l[j];
    assert IndexOf(s, '@') == |l|;
    assert s[..|l|] == l;
  }

  /** Without a display name, anonymizing an already anonymized address changes nothing. */
  lemma AnonymizeEmailIdempotent(email: string, org1: string, org2: string)
    ensures AnonymizeEmail(AnonymizeEmail(email, "", org1), "", org2) == AnonymizeEmail(email, "", org1)
  {
    var l := if email == "" then "redacted" else LocalPart(email);
    var once := AnonymizeEmail(email, "", org1);
    assert once == l + "@redacted";
    LocalPartOfRedacted(l);
    assert AnonymizeEmail(once, "", org2) == LocalPart(once) + "@redacted";
  }

  /** anonymizePhone: "redacted" without a number; a display name wins; otherwise the alias. */
  function AnonymizePhone(phone: string, displayName: string, sha256: string -> Digest): (r: string)
    ensures phone == "" ==> r == "redacted"
    ensures phone != "" && displayName != "" ==> r == displayName
    ensures phone != "" && displayName == "" ==> r == GenerateAlias(phone, sha256) && r[..6] == AliasPrefix
  {
    if phone == "" then "redacted"
    else if displayName != "" then displayName
    else GenerateAlias(phone, sha256)
  }

  /** A character of the class `[\d\s-]` */
  predicate PhoneChar(c: char) {
    '0' <= c <= '9' || IsSpace(c) || c == '-'
  }

  /** `/^\+?[\d\s-]+$/`: an optional leading '+' and at least one digit, space or dash. */
  predicate PhoneLike(s: string) {
    (|s| >= 1 && forall i :: 0 <= i < |s| ==> PhoneChar(s[i]))
    || (|s| >= 2 && s[0] == '+' && forall i :: 1 <= i < |s| ==> PhoneChar(s[i]))
  }

  /** The callback of anonymizeRecipients: the '@' test comes before the phone pattern; anything else is kept. */
  function AnonymizeRecipient(recip: string, sha256: string -> Digest): (r: string)
    ensures '@' in recip ==> r == AnonymizeEmail(recip, "", "")
    ensures '@' !in recip && PhoneLike(recip) ==> r == AnonymizePhone(recip, "", sha256)
    ensures '@' !in recip && !PhoneLike(recip) ==> r == recip
  {
    if '@' in recip then AnonymizeEmail(recip, "", "")
    else if PhoneLike(recip) then AnonymizePhone(recip, "", sha256)
    else recip
  }

  /** anonymizeRecipients: [] for a non-array; otherwise one display string per entry, in order. */
  function AnonymizeRecipients(recipients: Option<seq<string>>, sha256: string -> Digest): (r: seq<string>)
    ensures recipients.None? ==> r == []
    ensures recipients.Some? ==> |r| == |recipients.value|
    ensures recipients.Some? ==> forall k :: 0 <= k < |r| ==> r[k] == AnonymizeRecipient(recipients.value[k], sha256)
  {
    match recipients
    case None => []
    case Some(rs) => seq(|rs|, k requires 0 <= k < |rs| => AnonymizeRecipient(rs[k], sha256))
  }

  /** Anonymizing an anonymized entry changes nothing: aliases neither hold '@' nor look like a phone number. */
  lemma RecipientIdempotent(recip: string, sha256: string -> Digest)
    ensures AnonymizeRecipient(AnonymizeRecipient(recip, sha256), sha256) == AnonymizeRecipient(recip, sha256)
  {
    if '@' in recip {
      AnonymizeEmailIdempotent(recip, "", "");
    } else if PhoneLike(recip) {
      var alias := AnonymizePhone(recip, "", sha256);
      assert alias[0] == 'a';
      assert forall i :: 6 <= i < 10 ==> alias[i] != '@';
      assert forall i :: 0 <= i < 6 ==> alias[i] == AliasPrefix[i];
    }
  }

  /** Anonymizing a recipient list twice gives the same list as once. */
  lemma RecipientsIdempotent(recipients: seq<string>, sha256: string -> Digest)
    ensures AnonymizeRecipients(Some(AnonymizeRecipients(Some(recipients), sha256)), sha256)
            == AnonymizeRecipients(Some(recipients), sha256)
  {
    var once := AnonymizeRecipients(Some(recipients), sha256);
    forall k | 0 <= k < |once|
      ensures AnonymizeRecipient(once[k], sha256) == once[k]
    {
      RecipientIdempotent(recipients[k], sha256);
    }
  }

  /** The text after the first '@'. */
  function AfterAt(email: string): string
    requires '@' in email
  {
    email[IndexOf(email, '@') + 1..]
  }

  /**
   * extractOrg: None without an '@'; otherwise the text after the first '@'
   * up to the first '.' or the next '@', or None when that is empty.
   */
  function ExtractOrg(email: string): (r: Option<string>)
    ensures '@' !in email ==> r.None?
    ensures '@' in email ==> (r.Some? <==> AfterAt(email) != [] && AfterAt(email)[0] != '.' && AfterAt(email)[0] != '@')
    ensures r.Some? ==> var rest := AfterAt(email);
                        r.value != "" && '.' !in r.value && '@' !in r.value
                        && |r.value| <= |rest| && rest[..|r.value|] == r.value
                        && (|r.value| < |rest| ==> rest[|r.value|] == '.' || rest[|r.value|] == '@')
  {
    if email == "" || '@' !in email then None
    else
      var domain := Split(email, '@')[1];
      var org := Split(domain, '.')[0];
      assert domain == AfterAt(email)[..IndexOf(AfterAt(email), '@')];
      if org == "" then None else Some(org)
  }
}
