/**
  The storage keys of staged media parts. A key's path spells the attachment, the object and the attempt, so
  no two attempts share a key: the ledger's keys carry their attempt for this reason.
 */
module StagedKeys {
  import opened Wrappers
  import opened Texts

  predicate IsSegmentChar(c: char) {
    || 'a' <= c <= 'z' || 'A' <= c <= 'Z' || IsDigit(c)
    || c == '-' || c == '_' || c == '.'
  }

  /** `validate_segment`. */
  predicate IsSegment(s: string) {
    0 < |s| <= 160 && s != "." && s != ".." && forall i :: 0 <= i < |s| ==> IsSegmentChar(s[i])
  }

  datatype WriteAttempt = WriteAttempt(attachmentId: string, objectName: string, attemptId: string)

  predicate IsAttempt(a: WriteAttempt) {
    IsSegment(a.attachmentId) && IsSegment(a.objectName) && IsSegment(a.attemptId)
  }

  function Zeros(n: nat): string {
    if n == 0 then "" else "0" + Zeros(n - 1)
  }

  /** The part number in at least eight digits. */
  function Padded(n: nat): string {
    var digits := Decimal(n);
    if |digits| < 8 then Zeros(8 - |digits|) + digits else digits
  }

  function StagedKey(a: WriteAttempt, partNumber: nat, suffix: string): string {
    "media/v1/staged/" + Below(a.attachmentId, Below(a.objectName, Below(a.attemptId,
      "parts/" + Padded(partNumber) + "-" + suffix)))
  }

  function Below(directory: string, rest: string): string {
    directory + "/" + rest
  }

  lemma KeyPieces(a: WriteAttempt, partNumber: nat, suffix: string)
    requires IsAttempt(a)
    ensures var pieces := Split(StagedKey(a, partNumber, suffix), '/');
            |pieces| >= 6 && pieces[3] == a.attachmentId && pieces[4] == a.objectName && pieces[5] == a.attemptId
  {
    var tail := "parts/" + Padded(partNumber) + "-" + suffix;
    var fifth := Below(a.attemptId, tail);
    var fourth := Below(a.objectName, fifth);
    var third := Below(a.attachmentId, fourth);
    SplitAfterPiece(a.attemptId, tail, '/');
    SplitAfterPiece(a.objectName, fifth, '/');
    SplitAfterPiece(a.attachmentId, fourth, '/');
    PrefixPieces(third);
  }

  lemma PrefixPieces(rest: string)
    ensures Split("media/v1/staged/" + rest, '/') == ["media", "v1", "staged"] + Split(rest, '/')
  {
    var two := "staged" + "/" + rest;
    var one := "v1" + "/" + two;
    assert "media/v1/staged/" + rest == "media" + "/" + one;
    SplitAfterPiece("media", one, '/');
    SplitAfterPiece("v1", two, '/');
    SplitAfterPiece("staged", rest, '/');
  }

  /** The attempt id of a lease: its token and its generation. */
  function LeaseAttempt(token: string, generation: nat): string {
    token + "-" + Decimal(generation)
  }

  lemma LeaseAttemptInjective(token: string, generation: nat, token': string, generation': nat)
    requires LeaseAttempt(token, generation) == LeaseAttempt(token', generation')
    ensures token == token' && generation == generation'
  {
    DecimalIsNumber(generation);
    DecimalIsNumber(generation');
    var s := LeaseAttempt(token, generation);
    assert IsLastDash(s, |token|) && IsLastDash(s, |token'|);
    assert s[..|token|] == token && s[..|token'|] == token';
    assert s[|token| + 1..] == Decimal(generation) && s[|token'| + 1..] == Decimal(generation');
  }

  predicate IsLastDash(s: string, at: nat) {
    at < |s| && s[at] == '-' && forall i :: at < i < |s| ==> s[i] != '-'
  }

  /** Equal keys come from one attachment, one object, one lease token and one generation. */
  lemma KeyNamesTheAttempt(attachment: string, object_: string, token: string, generation: nat,
                           part: nat, suffix: string,
                           attachment': string, object_': string, token': string, generation': nat,
                           part': nat, suffix': string)
    requires IsAttempt(WriteAttempt(attachment, object_, LeaseAttempt(token, generation)))
    requires IsAttempt(WriteAttempt(attachment', object_', LeaseAttempt(token', generation')))
    requires StagedKey(WriteAttempt(attachment, object_, LeaseAttempt(token, generation)), part, suffix)
             == StagedKey(WriteAttempt(attachment', object_', LeaseAttempt(token', generation')), part', suffix')
    ensures attachment == attachment' && object_ == object_' && token == token' && generation == generation'
  {
    KeyPieces(WriteAttempt(attachment, object_, LeaseAttempt(token, generation)), part, suffix);
    KeyPieces(WriteAttempt(attachment', object_', LeaseAttempt(token', generation')), part', suffix');
    LeaseAttemptInjective(token, generation, token', generation');
  }

  // ----- What else a key tells

  lemma TailPieces(name: string)
    requires '/' !in name
    ensures Split("parts/" + name, '/') == ["parts", name]
  {
    assert "parts/" + name == "parts" + "/" + name;
    SplitAfterPiece("parts", name, '/');
    SplitOnePiece(name, '/');
  }

  lemma KeyEndsWithPart(a: WriteAttempt, partNumber: nat, suffix: string)
    requires IsAttempt(a) && '/' !in suffix
    ensures var pieces := Split(StagedKey(a, partNumber, suffix), '/');
            |pieces| == 8 && pieces[7] == Padded(partNumber) + "-" + suffix
  {
    PaddedValue(partNumber);
    var name := Padded(partNumber) + "-" + suffix;
    var tail := "parts/" + Padded(partNumber) + "-" + suffix;
    assert tail == "parts/" + name && '/' !in name;
    TailPieces(name);
    var fifth := Below(a.attemptId, tail);
    var fourth := Below(a.objectName, fifth);
    SplitAfterPiece(a.attemptId, tail, '/');
    SplitAfterPiece(a.objectName, fifth, '/');
    SplitAfterPiece(a.attachmentId, fourth, '/');
    PrefixPieces(Below(a.attachmentId, fourth));
  }

  lemma {:induction false} PaddingKeepsValue(n: nat, digits: string)
    requires AllDigits(digits)
    ensures AllDigits(Zeros(n) + digits) && Value(Zeros(n) + digits) == Value(digits)
    decreases |digits|
  {
    ZerosAreDigits(n);
    var s := Zeros(n) + digits;
    if digits == [] {
      assert s == Zeros(n);
      ZerosAreNothing(n);
    } else {
      PaddingKeepsValue(n, digits[..|digits| - 1]);
      assert s[..|s| - 1] == Zeros(n) + digits[..|digits| - 1];
    }
  }

  lemma {:induction false} ZerosAreNothing(n: nat)
    ensures AllDigits(Zeros(n)) && Value(Zeros(n)) == 0
  {
    ZerosAreDigits(n);
    if n > 0 {
      ZerosAreNothing(n - 1);
      ZerosEndWithZero(n);
    }
  }

  lemma {:induction false} ZerosEndWithZero(n: nat)
    requires n > 0
    ensures Zeros(n) == Zeros(n - 1) + "0"
  {
    if n > 1 {
      ZerosEndWithZero(n - 1);
    }
  }

  lemma PaddedValue(n: nat)
    ensures AllDigits(Padded(n)) && Value(Padded(n)) == n
  {
    DecimalIsNumber(n);
    if |Decimal(n)| < 8 {
      PaddingKeepsValue(8 - |Decimal(n)|, Decimal(n));
    }
  }

  /** Equal keys also have the part number and the random suffix in common. */
  lemma KeyNamesThePart(a: WriteAttempt, part: nat, suffix: string, a': WriteAttempt, part': nat, suffix': string)
    requires IsAttempt(a) && IsAttempt(a') && '/' !in suffix && '/' !in suffix'
    requires StagedKey(a, part, suffix) == StagedKey(a', part', suffix')
    ensures a == a' && part == part' && suffix == suffix'
  {
    KeyPieces(a, part, suffix);
    KeyPieces(a', part', suffix');
    KeyEndsWithPart(a, part, suffix);
    KeyEndsWithPart(a', part', suffix');
    PaddedValue(part);
    PaddedValue(part');
    FirstDashSeparates(Padded(part), suffix, Padded(part'), suffix');
  }

  lemma FirstDashSeparates(digits: string, rest: string, digits': string, rest': string)
    requires AllDigits(digits) && AllDigits(digits') && digits + "-" + rest == digits' + "-" + rest'
    ensures digits == digits' && rest == rest'
  {
    var s := digits + "-" + rest;
    assert s[|digits|] == '-' && s[|digits'|] == '-';
    assert forall i :: 0 <= i < |digits| ==> s[i] == digits[i];
    assert forall i :: 0 <= i < |digits'| ==> s[i] == digits'[i];
    assert s[..|digits|] == digits && s[..|digits'|] == digits';
    assert s[|digits| + 1..] == rest && s[|digits'| + 1..] == rest';
  }

  // ----- What the store's deletion accepts

  const PREFIX: string := "media/v1/staged/"

  predicate NoDoubleSlash(s: string) {
    forall i :: 0 < i < |s| && s[i - 1] == '/' ==> s[i] != '/'
  }

  /** The guard of `delete_object_key`. */
  predicate Deletable(key: string) {
    PREFIX <= key && |key| <= 1024 && NoDoubleSlash(key)
  }

  lemma BelowHasNoDoubleSlash(directory: string, rest: string)
    requires '/' !in directory && rest != "" && rest[0] != '/' && NoDoubleSlash(rest)
    ensures NoDoubleSlash(Below(directory, rest))
  {
    var s := Below(directory, rest);
    forall i | 0 < i < |s| && s[i - 1] == '/' ensures s[i] != '/' {
      assert forall j :: 0 <= j < |directory| ==> s[j] == directory[j] != '/';
      assert i >= |directory| + 1;
      assert i > |directory| + 1 ==> s[i - 1] == rest[i - |directory| - 2];
      assert s[i] == rest[i - |directory| - 1];
    }
  }

  function PowerOfTen(k: nat): nat {
    if k == 0 then 1 else 10 * PowerOfTen(k - 1)
  }

  lemma {:induction false} DecimalLength(n: nat, k: nat)
    requires 0 < k && n < PowerOfTen(k)
    ensures |Decimal(n)| <= k
  {
    if n >= 10 {
      assert k > 1;
      DecimalLength(n / 10, k - 1);
    }
  }

  lemma PaddedIsDigits(n: nat)
    requires n <= U32_MAX
    ensures 8 <= |Padded(n)| <= 10 && AllDigits(Padded(n))
  {
    DecimalIsNumber(n);
    assert PowerOfTen(5) == 100_000 && PowerOfTen(10) == 10_000_000_000;
    DecimalLength(n, 10);
    ZerosAreDigits(if |Decimal(n)| < 8 then 8 - |Decimal(n)| else 0);
  }

  lemma {:induction false} ZerosAreDigits(n: nat)
    ensures |Zeros(n)| == n && AllDigits(Zeros(n))
  {
    if n > 0 {
      ZerosAreDigits(n - 1);
    }
  }

  /** Every staged key with a suffix of 16 bytes in hex is one that the store agrees to delete. */
  lemma StagedKeyIsDeletable(a: WriteAttempt, partNumber: nat, suffix: string)
    requires IsAttempt(a) && partNumber <= U32_MAX && |suffix| == 32 && '/' !in suffix
    ensures Deletable(StagedKey(a, partNumber, suffix))
  {
    PaddedIsDigits(partNumber);
    var name := Padded(partNumber) + "-" + suffix;
    var tail := Below("parts", name);
    assert tail == "parts/" + Padded(partNumber) + "-" + suffix;
    var fifth := Below(a.attemptId, tail);
    var fourth := Below(a.objectName, fifth);
    var third := Below(a.attachmentId, fourth);
    assert '/' !in name;
    BelowHasNoDoubleSlash("parts", name);
    BelowHasNoDoubleSlash(a.attemptId, tail);
    BelowHasNoDoubleSlash(a.objectName, fifth);
    BelowHasNoDoubleSlash(a.attachmentId, fourth);
    PrefixHasNoDoubleSlash(third);
    assert StagedKey(a, partNumber, suffix) == PREFIX + third;
  }

  lemma PrefixHasNoDoubleSlash(rest: string)
    requires rest != "" && rest[0] != '/' && NoDoubleSlash(rest)
    ensures NoDoubleSlash(PREFIX + rest)
  {
    var two := Below("staged", rest);
    var one := Below("v1", two);
    BelowHasNoDoubleSlash("staged", rest);
    BelowHasNoDoubleSlash("v1", two);
    BelowHasNoDoubleSlash("media", one);
    assert PREFIX + rest == Below("media", one);
  }
}
