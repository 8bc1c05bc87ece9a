/** The name checks the infrastructure setup script applies before it creates
    anything: `validate_bucket_name` for the S3 bucket
    (setup_aws_infrastructure.py:63-101) and `validate_table_prefix` for the
    DynamoDB table names (setup_aws_infrastructure.py:103-124). Characters
    are ASCII: `isalnum`, `isupper` and `\d` are read over letters and digits
    `a`-`z`, `A`-`Z` and `0`-`9`. */
module AwsValidators {
  import opened Text

  // ---------------------------------------------------------------------
  // validate_bucket_name (setup_aws_infrastructure.py:63-101)
  // ---------------------------------------------------------------------

  /** The outcome of the bucket-name check: acceptance, or the first guard
      that refused the name (the script logs its message and returns False). */
  datatype BucketCheck =
    | BucketOk
    | LengthOutOfRange     // "must be between 3 and 63 characters long"
    | BadFirstCharacter    // "must start with a letter or number"
    | TrailingHyphen       // "cannot end with a hyphen"
    | BadCharacter         // "can only contain lowercase letters, numbers, and hyphens"
    | Uppercase            // "must be lowercase"
    | ConsecutiveHyphens   // "cannot contain consecutive hyphens"
    | IpAddressForm        // "cannot be formatted as an IP address"

  predicate AllDigits(s: string) {
    forall i :: 0 <= i < |s| ==> IsDigit(s[i])
  }

  /** `re.match(r'^\d+\.\d+\.\d+\.\d+$', s)`: four runs of digits joined by
      dots, with the one final newline that `$` lets through. */
  predicate IpLike(s: string) {
    var t := if s != [] && s[|s| - 1] == '\n' then s[..|s| - 1] else s;
    var parts := Split(t, '.');
    |parts| == 4 && forall k :: 0 <= k < 4 ==> parts[k] != [] && AllDigits(parts[k])
  }

  predicate BucketChar(c: char) { IsAlnum(c) || c == '-' }

  function ValidateBucketName(name: string): (r: BucketCheck)
    ensures r == BucketOk ==> 3 <= |name| <= 63 && name[0] != '-' && name[|name| - 1] != '-'
    ensures r == BucketOk ==> !Contains(name, "--")
  {
    if |name| < 3 || |name| > 63 then LengthOutOfRange
    else if !IsAlnum(name[0]) then BadFirstCharacter
    else if name[|name| - 1] == '-' then TrailingHyphen
    else if !(forall i :: 0 <= i < |name| ==> BucketChar(name[i])) then BadCharacter
    else if exists i :: 0 <= i < |name| && IsUpper(name[i]) then Uppercase
    else if Contains(name, "--") then ConsecutiveHyphens
    else if IpLike(name) then IpAddressForm
    else BucketOk
  }

  /** The S3 naming rules the check enforces, stated at once: 3 to 63
      lower-case letters, digits and hyphens, neither starting nor ending
      with a hyphen and with no two hyphens in a row. */
  predicate BucketNameRules(name: string) {
    3 <= |name| <= 63
    && (forall i :: 0 <= i < |name| ==> IsLower(name[i]) || IsDigit(name[i]) || name[i] == '-')
    && name[0] != '-' && name[|name| - 1] != '-'
    && !Contains(name, "--")
  }

  /** A name that gets as far as the IP-address test has no dot, so it can
      never look like an address: that guard never refuses anything. */
  lemma IpCheckUnreachable(name: string)
    requires forall i :: 0 <= i < |name| ==> BucketChar(name[i])
    ensures !IpLike(name)
  {
    assert '.' !in name by {
      forall i | 0 <= i < |name| ensures name[i] != '.' { assert BucketChar(name[i]); }
    }
    var t := if name != [] && name[|name| - 1] == '\n' then name[..|name| - 1] else name;
    assert '.' !in t by {
      forall i | 0 <= i < |t| ensures t[i] != '.' { assert t[i] == name[i]; }
    }
    SplitNoSep(t, '.');
  }

  /** The check accepts exactly the names that follow the naming rules. */
  lemma BucketNameCharacterisation(name: string)
    ensures ValidateBucketName(name) == BucketOk <==> BucketNameRules(name)
  {
    if BucketNameRules(name) {
      assert forall i :: 0 <= i < |name| ==> BucketChar(name[i]) && !IsUpper(name[i]);
      assert IsAlnum(name[0]);
      IpCheckUnreachable(name);
    }
    if ValidateBucketName(name) == BucketOk {
      assert forall i :: 0 <= i < |name| ==> IsLower(name[i]) || IsDigit(name[i]) || name[i] == '-' by {
        forall i | 0 <= i < |name| ensures IsLower(name[i]) || IsDigit(name[i]) || name[i] == '-' {
          assert BucketChar(name[i]) && !IsUpper(name[i]);
        }
      }
    }
  }

  /** A text whose character `c` never appears twice in a row does not
      contain `cc`. */
  lemma NoDoubled(s: string, c: char)
    requires forall i :: 0 <= i < |s| - 1 ==> s[i] != c || s[i + 1] != c
    ensures !Contains(s, [c, c])
  {
    forall i ensures !OccursAt(s, [c, c], i) {
      if 0 <= i && i + 2 <= |s| {
        assert s[i..i + 2] == [s[i], s[i + 1]];
      }
    }
  }

  /** Names the production-readiness tests expect to be refused for their
      length: two characters, and 64. */
  lemma RefusedForLength()
    ensures ValidateBucketName("ab") == LengthOutOfRange
    ensures ValidateBucketName(seq(64, _ => 'a')) == LengthOutOfRange
  {
  }

  lemma RefusedLeadingHyphen()
    ensures ValidateBucketName("-bucket-name-starting-with-hyphen") == BadFirstCharacter
  {
  }

  lemma RefusedTrailingHyphen()
    ensures ValidateBucketName("bucket-name-ending-with-hyphen-") == TrailingHyphen
  {
  }

  /** The address `192.168.1.1` is refused by the character guard, before
      the IP-address guard is reached. */
  lemma RefusedAddress()
    ensures ValidateBucketName("192.168.1.1") == BadCharacter
  {
    var ip := "192.168.1.1";
    assert !BucketChar(ip[3]);
  }

  lemma RefusedDoubleHyphen()
    ensures ValidateBucketName("invalid-bucket-name--with-double-hyphens") == ConsecutiveHyphens
  {
    var dh := "invalid-bucket-name--with-double-hyphens";
    assert dh[19..21] == "--";
    assert OccursAt(dh, "--", 19);
    LowerCaseName(dh);
  }

  /** A name of lower-case letters, digits and hyphens passes the character
      and upper-case guards. */
  lemma LowerCaseName(name: string)
    requires forall i :: 0 <= i < |name| ==> IsLower(name[i]) || IsDigit(name[i]) || name[i] == '-'
    ensures forall i :: 0 <= i < |name| ==> BucketChar(name[i]) && !IsUpper(name[i])
  {
  }

  /** A name follows the naming rules when its characters do, it starts and
      ends with a letter or digit and has no two hyphens in a row. */
  lemma RulesFromCharacters(name: string)
    requires 3 <= |name| <= 63
    requires forall i :: 0 <= i < |name| ==> IsLower(name[i]) || IsDigit(name[i]) || name[i] == '-'
    requires name[0] != '-' && name[|name| - 1] != '-'
    requires forall i :: 0 <= i < |name| - 1 ==> name[i] != '-' || name[i + 1] != '-'
    ensures ValidateBucketName(name) == BucketOk
  {
    NoDoubled(name, '-');
    assert ['-', '-'] == "--";
    BucketNameCharacterisation(name);
  }

  /** The names the production-readiness tests expect to be accepted; the
      last, sixty-three letters, is the longest name allowed. */
  const ValidTestNames: seq<string> := ["my-valid-bucket-name", "bucket123", "my-bucket-name-123", seq(63, _ => 'a')]

  lemma AcceptedValidBucketNames(name: string)
    requires name in ValidTestNames
    ensures ValidateBucketName(name) == BucketOk
  {
    if name == ValidTestNames[0] {
      RulesFromCharacters(name);
    } else if name == ValidTestNames[1] {
      RulesFromCharacters(name);
    } else if name == ValidTestNames[2] {
      RulesFromCharacters(name);
    } else {
      assert name == seq(63, _ => 'a');
      RulesFromCharacters(name);
    }
  }

  // ---------------------------------------------------------------------
  // validate_table_prefix (setup_aws_infrastructure.py:103-124)
  // ---------------------------------------------------------------------

  /** The outcome of the table-prefix check. An accepted prefix that is a
      reserved word only draws a warning. */
  datatype PrefixCheck =
    | PrefixOk(reservedWarning: bool)
    | PrefixLengthOutOfRange   // "must be between 1 and 255 characters long"
    | PrefixBadCharacter       // "can only contain letters, numbers, underscores, hyphens, and dots"

  predicate PrefixChar(c: char) { IsAlnum(c) || c == '_' || c == '.' || c == '-' }

  predicate AllPrefixChars(s: string) {
    forall i :: 0 <= i < |s| ==> PrefixChar(s[i])
  }

  /** `re.match(r'^[a-zA-Z0-9_.-]+$', s)` as Python runs it: `$` also
      matches before one final newline. */
  predicate PrefixMatchAsWritten(s: string) {
    (s != [] && AllPrefixChars(s)) || (|s| >= 2 && s[|s| - 1] == '\n' && AllPrefixChars(s[..|s| - 1]))
  }

  const ReservedWords: seq<string> := ["aws", "amazon", "dynamodb", "table", "index"]

  predicate Reserved(s: string) { Lower(s) in ReservedWords }

  /** The prefix check as written. */
  function ValidateTablePrefixAsWritten(prefix: string): (r: PrefixCheck)
    ensures r.PrefixOk? ==> 1 <= |prefix| <= 255 && PrefixMatchAsWritten(prefix)
  {
    if |prefix| < 1 || |prefix| > 255 then PrefixLengthOutOfRange
    else if !PrefixMatchAsWritten(prefix) then PrefixBadCharacter
    else PrefixOk(Reserved(prefix))
  }

  /** The prefix check with the pattern matched against the whole text, as
      its comment describes: letters, digits, `_`, `-` and `.` only. */
  function ValidateTablePrefix(prefix: string): (r: PrefixCheck)
    ensures r.PrefixOk? <==> 1 <= |prefix| <= 255 && AllPrefixChars(prefix)
    ensures r.PrefixOk? ==> r.reservedWarning == Reserved(prefix)
  {
    if |prefix| < 1 || |prefix| > 255 then PrefixLengthOutOfRange
    else if !AllPrefixChars(prefix) then PrefixBadCharacter
    else PrefixOk(Reserved(prefix))
  }

  /** The two checks differ only on a prefix ending in a newline. */
  lemma PrefixChecksAgree(prefix: string)
    requires prefix == [] || prefix[|prefix| - 1] != '\n'
    ensures ValidateTablePrefixAsWritten(prefix) == ValidateTablePrefix(prefix)
  {
  }

  /** `users` followed by a newline passes the check as written, although a
      newline is not allowed in a DynamoDB table name; the full-text check
      refuses it. */
  lemma TrailingNewlinePrefix()
    ensures ValidateTablePrefixAsWritten("users\n").PrefixOk?
    ensures ValidateTablePrefix("users\n") == PrefixBadCharacter
  {
    var s := "users\n";
    assert s[..|s| - 1] == "users";
    assert !PrefixChar(s[5]);
  }

  /** Reserved words are accepted with a warning, whatever their case. */
  lemma ReservedWordsAccepted()
    ensures ValidateTablePrefix("aws") == PrefixOk(true)
    ensures ValidateTablePrefix("AWS") == PrefixOk(true)
    ensures ValidateTablePrefix("custom_prefix") == PrefixOk(false)
  {
    assert Lower("aws") == "aws";
    assert Lower("AWS") == "aws";
    var c := "custom_prefix";
    assert |Lower(c)| == 13;
  }
}
