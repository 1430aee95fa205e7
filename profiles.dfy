/**
 * The profile page: a form of seven text fields and an avatar, a
 * completion score that weighs each filled field, and the handlers that
 * load the profile, pick a new avatar and save.
 *
 * A picked file is represented by its name; `URL.createObjectURL` is an
 * input (`blobUrl`). Server replies are inputs.
 */
module Profiles {
  import opened Wrappers
  import opened Text
  import UseAuth

  const DEFAULT_AVATAR: string := "/default-avatar.png"

  /** The weights of full name, nationality, gender, phone, blood type, allergies, emergency contact and avatar. */
  const WEIGHTS: seq<nat> := [15, 15, 10, 15, 10, 10, 15, 10]

  function Sum(ws: seq<nat>): nat {
    if ws == [] then 0 else ws[0] + Sum(ws[1..])
  }

  /** The sum of the weights whose field is filled. */
  function WeightedSum(ws: seq<nat>, filled: seq<bool>): nat
    requires |ws| == |filled|
  {
    if ws == [] then 0 else (if filled[0] then ws[0] else 0) + WeightedSum(ws[1..], filled[1..])
  }

  lemma {:induction false} WeightedSumBounded(ws: seq<nat>, filled: seq<bool>)
    requires |ws| == |filled|
    ensures WeightedSum(ws, filled) <= Sum(ws)
  {
    if ws != [] {
      WeightedSumBounded(ws[1..], filled[1..]);
    }
  }

  /** With positive weights, the full sum is reached exactly when every field is filled. */
  lemma {:induction false} WeightedSumFull(ws: seq<nat>, filled: seq<bool>)
    requires |ws| == |filled|
    requires forall i :: 0 <= i < |ws| ==> ws[i] > 0
    ensures WeightedSum(ws, filled) == Sum(ws) <==> forall i :: 0 <= i < |filled| ==> filled[i]
  {
    if ws != [] {
      WeightedSumFull(ws[1..], filled[1..]);
      WeightedSumBounded(ws[1..], filled[1..]);
      if forall i :: 0 <= i < |filled| ==> filled[i] {
        assert forall i :: 0 <= i < |filled[1..]| ==> filled[1..][i] by {
          forall i | 0 <= i < |filled[1..]| ensures filled[1..][i] {
            assert filled[1..][i] == filled[i + 1];
          }
        }
      }
      if forall i :: 0 <= i < |filled[1..]| ==> filled[1..][i] {
        if filled[0] {
          forall i | 0 <= i < |filled| ensures filled[i] {
            if i > 0 {
              assert filled[i] == filled[1..][i - 1];
            }
          }
        }
      }
    }
  }

  /** Weights that are multiples of five give a multiple of five. */
  lemma {:induction false} WeightedSumStep(ws: seq<nat>, filled: seq<bool>)
    requires |ws| == |filled|
    requires forall i :: 0 <= i < |ws| ==> ws[i] % 5 == 0
    ensures WeightedSum(ws, filled) % 5 == 0
  {
    if ws != [] {
      assert forall i :: 0 <= i < |ws[1..]| ==> ws[1..][i] == ws[i + 1];
      WeightedSumStep(ws[1..], filled[1..]);
    }
  }

  /** Filling more fields never lowers the sum. */
  lemma {:induction false} WeightedSumMonotone(ws: seq<nat>, filled: seq<bool>, more: seq<bool>)
    requires |ws| == |filled| == |more|
    requires forall i :: 0 <= i < |filled| && filled[i] ==> more[i]
    ensures WeightedSum(ws, filled) <= WeightedSum(ws, more)
  {
    if ws != [] {
      assert forall i :: 0 <= i < |filled[1..]| && filled[1..][i] ==> more[1..][i] by {
        forall i | 0 <= i < |filled[1..]| && filled[1..][i] ensures more[1..][i] {
          assert filled[1..][i] == filled[i + 1] && more[1..][i] == more[i + 1];
        }
      }
      WeightedSumMonotone(ws[1..], filled[1..], more[1..]);
    }
  }

  /** The score of a form, given which of its eight terms are truthy, in the order of `WEIGHTS`. */
  function Completion(filled: seq<bool>): (c: nat)
    requires |filled| == |WEIGHTS|
    ensures c <= 100 && c % 5 == 0
    ensures c == 100 <==> forall i :: 0 <= i < |filled| ==> filled[i]
  {
    assert Sum(WEIGHTS) == 100 by {
      assert WEIGHTS[1..][1..][1..][1..][1..][1..][1..][1..] == [];
    }
    WeightedSumBounded(WEIGHTS, filled);
    WeightedSumStep(WEIGHTS, filled);
    WeightedSumFull(WEIGHTS, filled);
    WeightedSum(WEIGHTS, filled)
  }

  /** Filling a field never lowers the score. */
  lemma CompletionMonotone(filled: seq<bool>, more: seq<bool>)
    requires |filled| == |more| == |WEIGHTS|
    requires forall i :: 0 <= i < |filled| && filled[i] ==> more[i]
    ensures Completion(filled) <= Completion(more)
  {
    WeightedSumMonotone(WEIGHTS, filled, more);
  }

  /** The avatar term alone gives ten. */
  lemma {:induction false} AvatarAloneGivesTen()
    ensures Completion([false, false, false, false, false, false, false, true]) == 10
  {
    var f := [false, false, false, false, false, false, false, true];
    assert f[1..][1..][1..][1..][1..][1..][1..][1..] == [];
  }

  /** The reply to `GET /api/profile/me` or `POST /api/profile/update`: thrown, or a body with `success`. */
  datatype ProfileReply = ProfileThrew | ProfileBody(success: bool, user: UseAuth.Profile)

  class ProfilePage {
    var fullName: string
    var nationality: string
    var gender: string
    var phone: string
    var bloodType: string
    var allergies: string
    var emergencyContact: string
    var avatarUrl: string
    /** The picked avatar file, by name. */
    var dp: Option<string>

    /** The avatar URL is never empty: it starts at, and falls back to, a non-empty value. */
    ghost predicate Valid()
      reads this
    {
      avatarUrl != ""
    }

    /** Which of the score's terms are truthy. */
    function Filled(): (f: seq<bool>)
      reads this
      ensures |f| == |WEIGHTS|
    {
      [fullName != "", nationality != "", gender != "", phone != "", bloodType != "", allergies != "",
       emergencyContact != "", dp.Some? || avatarUrl != ""]
    }

    /** The completion percentage shown on the page; with a non-empty avatar URL it is at least ten. */
    function Score(): (c: nat)
      reads this
      ensures c <= 100 && c % 5 == 0
      ensures avatarUrl != "" ==> c >= 10
    {
      var f := Filled();
      if avatarUrl != "" then
        CompletionMonotone([false, false, false, false, false, false, false, true], f);
        AvatarAloneGivesTen();
        Completion(f)
      else Completion(f)
    }

    constructor()
      ensures Valid()
      ensures fullName == "" && nationality == "" && gender == "" && phone == "" && bloodType == ""
      ensures allergies == "" && emergencyContact == "" && avatarUrl == DEFAULT_AVATAR && dp == None
    {
      fullName := "";
      nationality := "";
      gender := "";
      phone := "";
      bloodType := "";
      allergies := "";
      emergencyContact := "";
      avatarUrl := DEFAULT_AVATAR;
      dp := None;
    }

    /**
     * `fetchProfile`: only a reply with `success` fills the form, with ""
     * for missing fields and the default avatar for a missing URL, and
     * updates the context's user; otherwise nothing changes.
     */
    method FetchProfile(reply: ProfileReply, ctx: UseAuth.AuthContext)
      requires Valid()
      modifies this`fullName, this`nationality, this`gender, this`phone, this`bloodType
      modifies this`allergies, this`emergencyContact, this`avatarUrl, ctx`user
      ensures Valid() && dp == old(dp)
      ensures !(reply.ProfileBody? && reply.success) ==>
                fullName == old(fullName) && nationality == old(nationality) && gender == old(gender) &&
                phone == old(phone) && bloodType == old(bloodType) && allergies == old(allergies) &&
                emergencyContact == old(emergencyContact) && avatarUrl == old(avatarUrl) && ctx.user == old(ctx.user)
      ensures reply.ProfileBody? && reply.success ==>
                var u := reply.user;
                fullName == OrDefault(u.fullName, "") && nationality == OrDefault(u.nationality, "") && gender == OrDefault(u.gender, "") &&
                phone == OrDefault(u.phone, "") && bloodType == OrDefault(u.bloodType, "") && allergies == OrDefault(u.allergies, "") &&
                emergencyContact == OrDefault(u.emergencyContact, "") && avatarUrl == OrDefault(u.avatarUrl, DEFAULT_AVATAR) &&
                ctx.user == Some(u)
    {
      if reply.ProfileBody? && reply.success {
        var u := reply.user;
        fullName := OrDefault(u.fullName, "");
        nationality := OrDefault(u.nationality, "");
        gender := OrDefault(u.gender, "");
        phone := OrDefault(u.phone, "");
        bloodType := OrDefault(u.bloodType, "");
        allergies := OrDefault(u.allergies, "");
        emergencyContact := OrDefault(u.emergencyContact, "");
        avatarUrl := OrDefault(u.avatarUrl, DEFAULT_AVATAR);
        ctx.UpdateUser(u);
      }
    }

    /** `handleAvatarChange`: the picked file (or none) becomes `dp`; only a file changes the avatar URL. */
    method AvatarChange(file: Option<string>, blobUrl: string)
      requires Valid() && blobUrl != ""
      modifies this`dp, this`avatarUrl
      ensures Valid() && dp == file
      ensures file.None? ==> avatarUrl == old(avatarUrl)
      ensures file.Some? ==> avatarUrl == blobUrl
    {
      dp := file;
      if file.Some? {
        avatarUrl := blobUrl;
      }
    }

    /**
     * `handleSave`: on a reply with `success` the avatar URL becomes the
     * returned one (or stays), `dp` is cleared and the context's user
     * updated; otherwise nothing changes.
     */
    method Save(reply: ProfileReply, ctx: UseAuth.AuthContext)
      requires Valid()
      modifies this`avatarUrl, this`dp, ctx`user
      ensures Valid()
      ensures !(reply.ProfileBody? && reply.success) ==>
                avatarUrl == old(avatarUrl) && dp == old(dp) && ctx.user == old(ctx.user)
      ensures reply.ProfileBody? && reply.success ==>
                avatarUrl == OrDefault(reply.user.avatarUrl, old(avatarUrl)) && dp == None && ctx.user == Some(reply.user)
    {
      if reply.ProfileBody? && reply.success {
        avatarUrl := OrDefault(reply.user.avatarUrl, avatarUrl);
        dp := None;
        ctx.UpdateUser(reply.user);
      }
    }
  }
}
