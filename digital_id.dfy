/**
 * The digital ID card: a display address and a masked passport number
 * derived from the user's id, and the card's fields, which show a
 * placeholder until both the signed-in user and the traveller profile are
 * known.
 *
 * The issue and expiry dates come from the clock and are left out.
 */
module DigitalId {
  import opened Wrappers
  import opened Text
  import UseAuth

  const BULLET: char := '•'

  /** `s.replace(/-/g, "")`. */
  function WithoutDashes(s: string): (r: string)
    ensures |r| <= |s| && '-' !in r
  {
    if s == [] then [] else (if s[0] == '-' then [] else [s[0]]) + WithoutDashes(s[1..])
  }

  /** `s.replace(/\D/g, "")`: the decimal digits of `s`, in order. */
  function DigitsOf(s: string): (r: string)
    ensures |r| <= |s| && forall k :: 0 <= k < |r| ==> IsDigit(r[k])
  {
    if s == [] then [] else (if IsDigit(s[0]) then [s[0]] else []) + DigitsOf(s[1..])
  }

  lemma {:induction false} WithoutDashesAppend(a: string, b: string)
    ensures WithoutDashes(a + b) == WithoutDashes(a) + WithoutDashes(b)
  {
    if a == [] {
      assert a + b == b;
    } else {
      assert (a + b)[0] == a[0] && (a + b)[1..] == a[1..] + b;
      WithoutDashesAppend(a[1..], b);
    }
  }

  lemma {:induction false} WithoutDashesKeeps(s: string)
    requires '-' !in s
    ensures WithoutDashes(s) == s
  {
    if s != [] {
      WithoutDashesKeeps(s[1..]);
    }
  }

  lemma {:induction false} DigitsOfAppend(a: string, b: string)
    ensures DigitsOf(a + b) == DigitsOf(a) + DigitsOf(b)
  {
    if a == [] {
      assert a + b == b;
    } else {
      assert (a + b)[0] == a[0] && (a + b)[1..] == a[1..] + b;
      DigitsOfAppend(a[1..], b);
    }
  }

  lemma {:induction false} DigitsOfKeeps(s: string)
    requires forall k :: 0 <= k < |s| ==> IsDigit(s[k])
    ensures DigitsOf(s) == s
  {
    if s != [] {
      DigitsOfKeeps(s[1..]);
    }
  }

  /** `s.substring(from, to)` for `from <= to`: both bounds are clamped to the string. */
  function Substring(s: string, from: nat, to: nat): (r: string)
    requires from <= to
    ensures |r| <= to - from
    ensures from <= |s| ==> r == s[from..if to <= |s| then to else |s|]
    ensures from > |s| ==> r == ""
  {
    var hi := if to <= |s| then to else |s|;
    if from <= hi then s[from..hi] else ""
  }

  /** `generateBlockchainAddress(id)`: "0x", four characters, "...", four more, from the id without dashes. */
  function BlockchainAddress(id: string): (r: string)
  {
    var hash := Substring(WithoutDashes(id), 0, 8);
    "0x" + Substring(hash, 0, 4) + "..." + Substring(hash, 4, 8)
  }

  /** The address is at most 13 characters and has no dash. */
  lemma AddressShape(id: string)
    ensures |BlockchainAddress(id)| <= 13
    ensures '-' !in BlockchainAddress(id)
  {
    var h := Substring(WithoutDashes(id), 0, 8);
    var a, b := Substring(h, 0, 4), Substring(h, 4, 8);
    assert BlockchainAddress(id) == "0x" + a + "..." + b;
    assert '-' !in h;
    assert forall c :: c in a ==> c in h;
    assert forall c :: c in b ==> c in h;
  }

  /** With eight or more non-dash characters, the address shows the first eight, split four and four. */
  lemma AddressShowsHash(id: string)
    requires |WithoutDashes(id)| >= 8
    ensures var h := WithoutDashes(id); BlockchainAddress(id) == "0x" + h[..4] + "..." + h[4..8]
  {
    var h := WithoutDashes(id);
    assert Substring(h, 0, 8) == h[..8];
    assert Substring(h[..8], 0, 4) == h[..4];
    assert Substring(h[..8], 4, 8) == h[4..8];
  }

  /** For an id in UUID form, the address shows its first block. */
  lemma AddressOfUuid(block: string, rest: string)
    requires |block| == 8 && '-' !in block
    ensures BlockchainAddress(block + "-" + rest) == "0x" + block[..4] + "..." + block[4..]
  {
    WithoutDashesAppend(block, "-" + rest);
    WithoutDashesAppend("-", rest);
    assert block + "-" + rest == block + ("-" + rest);
    WithoutDashesKeeps(block);
    var w := WithoutDashes(block + "-" + rest);
    assert w[..8] == block;
  }

  /** `generatePassportNumber(id)`: four digits, five bullets, four more digits, from the digits of the id. */
  function PassportNumber(id: string): (r: string)
  {
    var nums := Substring(DigitsOf(id), 0, 8);
    Substring(nums, 0, 4) + [BULLET, BULLET, BULLET, BULLET, BULLET] + Substring(nums, 4, 8)
  }

  /** Four bullets' worth of padding between two runs of digits: every character that is not a bullet is a digit. */
  lemma {:induction false} MaskedDigits(a: string, b: string)
    requires forall k :: 0 <= k < |a| ==> IsDigit(a[k])
    requires forall k :: 0 <= k < |b| ==> IsDigit(b[k])
    ensures var m := a + [BULLET, BULLET, BULLET, BULLET, BULLET] + b;
            forall k :: 0 <= k < |m| && m[k] != BULLET ==> IsDigit(m[k])
  {
    var m := a + [BULLET, BULLET, BULLET, BULLET, BULLET] + b;
    forall k | 0 <= k < |m| && m[k] != BULLET
      ensures IsDigit(m[k])
    {
      if k < |a| {
        assert m[k] == a[k];
      } else {
        assert m[k] == b[k - |a| - 5];
      }
    }
  }

  /** The number is at most 13 characters and every character other than the bullets is a digit. */
  lemma PassportShape(id: string)
    ensures |PassportNumber(id)| <= 13
    ensures forall k :: 0 <= k < |PassportNumber(id)| && PassportNumber(id)[k] != BULLET ==> IsDigit(PassportNumber(id)[k])
  {
    var nums := Substring(DigitsOf(id), 0, 8);
    var a, b := Substring(nums, 0, 4), Substring(nums, 4, 8);
    assert forall k :: 0 <= k < |b| ==> b[k] == nums[4 + k];
    MaskedDigits(a, b);
  }

  /** With eight or more digits in the id, the number shows the first four and the next four around five bullets. */
  lemma PassportShowsDigits(id: string)
    requires |DigitsOf(id)| >= 8
    ensures var d := DigitsOf(id); PassportNumber(id) == d[..4] + [BULLET, BULLET, BULLET, BULLET, BULLET] + d[4..8]
  {
    var d := DigitsOf(id);
    assert Substring(d, 0, 8) == d[..8];
    assert Substring(d[..8], 0, 4) == d[..4];
    assert Substring(d[..8], 4, 8) == d[4..8];
  }

  /** A passport number masks nothing but digits: letters and dashes of the id never show. */
  lemma PassportOfDigits(digits: string)
    requires |digits| == 8 && forall k :: 0 <= k < 8 ==> IsDigit(digits[k])
    ensures PassportNumber("ab-" + digits) == digits[..4] + [BULLET, BULLET, BULLET, BULLET, BULLET] + digits[4..]
  {
    DigitsOfAppend("ab-", digits);
    DigitsOfKeeps(digits);
    assert DigitsOf("ab-") == "" by {
      assert "ab-"[1..] == "b-" && "b-"[1..] == "-" && "-"[1..] == "";
    }
  }

  /** The profile read from `GET /api/profile`; missing fields are `None`. */
  datatype TravelerProfile = TravelerProfile(
    id: string, fullName: Option<string>, email: Option<string>, nationality: Option<string>,
    emergencyContact: Option<string>, bloodType: Option<string>, allergies: Option<string>)

  datatype TravelerData = TravelerData(
    name: Option<string>, nationality: string, passportNumber: string, emergencyContact: string,
    bloodType: string, allergies: string, verificationStatus: string, blockchainAddress: string)

  const PLACEHOLDER: TravelerData := TravelerData(
    Some("Loading..."), "Unknown", [BULLET, BULLET, BULLET, BULLET, BULLET, BULLET, BULLET, BULLET, BULLET, BULLET, BULLET, BULLET],
    "Not set", "Unknown", "Not specified", "Pending", "0x0000...0000")

  /**
   * `travelerData`: the placeholder until both the user and the profile are
   * present; then the profile's fields with their defaults, the masked
   * numbers derived from the user's id, and status "Verified".
   */
  function Traveler(user: Option<UseAuth.Profile>, profile: Option<TravelerProfile>): (t: TravelerData)
    ensures user.None? || profile.None? ==> t == PLACEHOLDER
    ensures user.Some? && profile.Some? ==>
              t.verificationStatus == "Verified" &&
              t.name == (if profile.value.fullName.Some? && profile.value.fullName.value != "" then profile.value.fullName else user.value.email) &&
              t.nationality == OrDefault(profile.value.nationality, "Digital Citizen") &&
              t.emergencyContact == OrDefault(profile.value.emergencyContact, "Not set") &&
              t.bloodType == OrDefault(profile.value.bloodType, "Not specified") &&
              t.allergies == OrDefault(profile.value.allergies, "Not specified") &&
              t.passportNumber == PassportNumber(user.value.id) &&
              t.blockchainAddress == BlockchainAddress(user.value.id)
  {
    if user.None? || profile.None? then PLACEHOLDER
    else
      var u, p := user.value, profile.value;
      TravelerData(
        if p.fullName.Some? && p.fullName.value != "" then p.fullName else u.email,
        OrDefault(p.nationality, "Digital Citizen"),
        PassportNumber(u.id),
        OrDefault(p.emergencyContact, "Not set"),
        OrDefault(p.bloodType, "Not specified"),
        OrDefault(p.allergies, "Not specified"),
        "Verified",
        BlockchainAddress(u.id))
  }

  /** The card is verified exactly when both records are present. */
  lemma VerifiedIffLoaded(user: Option<UseAuth.Profile>, profile: Option<TravelerProfile>)
    ensures Traveler(user, profile).verificationStatus == "Verified" <==> user.Some? && profile.Some?
  {
  }
}
