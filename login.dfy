/**
 * The login screen: phone-number entry, then six one-digit code slots, then
 * routing by whether the user already has a profile. The auth provider and
 * the profile lookup are calls into the backend; their answers are given to
 * the methods as parameters.
 */
module Login {
  import opened Wrappers
  import opened Navigator

  /** `\d` of a JavaScript regular expression: an ASCII digit. */
  predicate IsDigit(c: char)
  {
    '0' <= c <= '9'
  }

  ghost predicate AllDigits(s: string)
  {
    forall i :: 0 <= i < |s| ==> IsDigit(s[i])
  }

  /**
   * `/^\d{min,max}$/.test(s)` (no upper bound when `max` is None): the
   * anchored pattern consumes `s` one digit at a time.
   */
  function MatchesDigitRun(s: string, min: nat, max: Option<nat>): bool
    decreases |s|
  {
    if s == [] then min == 0
    else
      IsDigit(s[0]) && max != Some(0) &&
      MatchesDigitRun(s[1..], if min == 0 then 0 else min - 1,
                      if max.Some? then Some(max.value - 1) else None)
  }

  lemma {:induction false} MatchesDigitRunIff(s: string, min: nat, max: Option<nat>)
    ensures MatchesDigitRun(s, min, max) <==>
      AllDigits(s) && min <= |s| && (max.None? || |s| <= max.value)
    decreases |s|
  {
    if s != [] {
      if IsDigit(s[0]) && max != Some(0) {
        MatchesDigitRunIff(s[1..], if min == 0 then 0 else min - 1,
                           if max.Some? then Some(max.value - 1) else None);
      }
      assert AllDigits(s) <==> IsDigit(s[0]) && AllDigits(s[1..]) by {
        forall i | 0 < i < |s| ensures s[i] == s[1..][i - 1] {}
      }
    }
  }

  /** `/^\d{10}$/.test(phoneNumber)`: exactly ten ASCII digits. */
  function PhonePattern(s: string): (r: bool)
    ensures r <==> |s| == 10 && AllDigits(s)
  {
    MatchesDigitRunIff(s, 10, Some(10));
    MatchesDigitRun(s, 10, Some(10))
  }

  /** `/^\d*$/.test(value)`: no character but ASCII digits, the empty value included. */
  function DigitsPattern(s: string): (r: bool)
    ensures r <==> AllDigits(s)
  {
    MatchesDigitRunIff(s, 0, None);
    MatchesDigitRun(s, 0, None)
  }

  /** The number handed to the auth provider: the fixed Indian country code, then the ten digits. */
  function FormattedPhone(phoneNumber: string): (r: string)
    ensures |r| == |phoneNumber| + 3 && r[..3] == "+91" && r[3..] == phoneNumber
  {
    "+91" + phoneNumber
  }

  /** `code.join("")`: no shorter than any slot, and empty exactly when every slot is. */
  function Concat(slots: seq<string>): (r: string)
    ensures forall k :: 0 <= k < |slots| ==> |slots[k]| <= |r|
    ensures r == [] <==> forall k :: 0 <= k < |slots| ==> slots[k] == []
    decreases |slots|
  {
    if slots == [] then []
    else
      var rest := Concat(slots[1..]);
      assert forall k :: 0 < k < |slots| ==> slots[k] == slots[1..][k - 1];
      slots[0] + rest
  }

  /**
   * `confirmCode`'s guard `!enteredCode || enteredCode.length !== 6`
   * negated: the joined code has six characters. Six empty slots never pass.
   */
  function CodeAccepted(slots: seq<string>): (r: bool)
    ensures r <==> |Concat(slots)| == 6
    ensures (forall k :: 0 <= k < |slots| ==> slots[k] == []) ==> !r
  {
    var entered := Concat(slots);
    entered != [] && |entered| == 6
  }

  /** Joining digit-only slots gives a digit-only code. */
  lemma {:induction false} ConcatAllDigits(slots: seq<string>)
    requires forall k :: 0 <= k < |slots| ==> AllDigits(slots[k])
    ensures AllDigits(Concat(slots))
    decreases |slots|
  {
    if slots != [] {
      ConcatAllDigits(slots[1..]);
      var r := Concat(slots[1..]);
      assert AllDigits(slots[0]);
      forall i | 0 <= i < |slots[0] + r| ensures IsDigit((slots[0] + r)[i]) {
        if i >= |slots[0]| {
          assert (slots[0] + r)[i] == r[i - |slots[0]|];
        }
      }
    }
  }

  /** With digit-only slots, an accepted code is exactly six digits. */
  lemma AcceptedCodeIsSixDigits(slots: seq<string>)
    requires forall k :: 0 <= k < |slots| ==> AllDigits(slots[k])
    requires CodeAccepted(slots)
    ensures |Concat(slots)| == 6 && AllDigits(Concat(slots))
  {
    ConcatAllDigits(slots);
  }

  /**
   * When no slot holds more than one character (the inputs' `maxLength`),
   * the joined code is as long as the number of filled slots, and no
   * longer than the number of slots.
   */
  lemma {:induction false} ConcatLengthOneCharSlots(slots: seq<string>)
    requires forall k :: 0 <= k < |slots| ==> |slots[k]| <= 1
    ensures |Concat(slots)| <= |slots|
    ensures |Concat(slots)| == |slots| <==> forall k :: 0 <= k < |slots| ==> |slots[k]| == 1
    decreases |slots|
  {
    if slots != [] {
      ConcatLengthOneCharSlots(slots[1..]);
      assert forall k :: 0 < k < |slots| ==> slots[k] == slots[1..][k - 1];
    }
  }

  /** With six one-character slots, a code is accepted exactly when every slot is filled. */
  lemma CodeAcceptedIffAllSlotsFilled(slots: seq<string>)
    requires |slots| == 6
    requires forall k :: 0 <= k < 6 ==> |slots[k]| <= 1
    ensures CodeAccepted(slots) <==> forall k :: 0 <= k < 6 ==> |slots[k]| == 1
  {
    ConcatLengthOneCharSlots(slots);
  }

  /**
   * `handleCodeChange`'s update of the slots: a digit-only value (possibly
   * empty) replaces slot `index` and nothing else; any other value leaves
   * the slots as they are.
   */
  function CodeAfterChange(slots: seq<string>, index: nat, value: string): (r: seq<string>)
    requires index < |slots|
    ensures |r| == |slots|
    ensures AllDigits(value) ==> r[index] == value
    ensures forall k :: 0 <= k < |slots| && k != index ==> r[k] == slots[k]
    ensures !AllDigits(value) ==> r == slots
  {
    if DigitsPattern(value) then slots[index := value] else slots
  }

  /** The slot `handleCodeChange` moves the focus to, if any. */
  function FocusAfterChange(index: nat, value: string): (r: Option<nat>)
    ensures r.Some? <==> AllDigits(value) && value != [] && index < 5
    ensures r.Some? ==> r.value == index + 1
  {
    if DigitsPattern(value) && value != [] && index < 5 then Some(index + 1) else None
  }

  /** Slot updates keep every slot digit-only. */
  lemma SlotsStayDigits(slots: seq<string>, index: nat, value: string)
    requires index < |slots|
    requires forall k :: 0 <= k < |slots| ==> AllDigits(slots[k])
    ensures forall k :: 0 <= k < |slots| ==> AllDigits(CodeAfterChange(slots, index, value)[k])
  {
  }

  /** Where a successful confirmation leads: the directory if a profile exists, otherwise the profile form. */
  function PostConfirmNavigation(uid: string, profileExists: bool): (r: Navigation)
    ensures r.route in Routes
    ensures profileExists ==> r == Navigation("Dashboard", map[])
    ensures !profileExists ==> r == Navigation("Detail", map["uid" := uid])
  {
    if profileExists then Navigation("Dashboard", map[]) else Navigation("Detail", map["uid" := uid])
  }

  /** The opaque handle the provider returns for one verification attempt. */
  datatype Confirmation = Confirmation(verificationId: string)

  /** The provider's answer to `signInWithPhoneNumber`. */
  datatype SendCodeResult = CodeSent(confirmation: Confirmation) | SendFailed

  /** The provider's answer to `confirm.confirm(code)`. */
  datatype ConfirmResult = Confirmed(uid: string) | ConfirmFailed

  /** The answer of the `users/{uid}` lookup. */
  datatype ProfileLookup = ProfileFound | ProfileMissing | LookupFailed

  /** What the screen's body shows. */
  datatype Mode = PhoneEntry | CodeEntry

  class LoginScreen {
    var phoneNumber: string
    var code: seq<string>
    var confirm: Option<Confirmation>

    /** Six slots, each holding digits only. */
    ghost predicate Valid()
      reads this
    {
      |code| == 6 && forall k :: 0 <= k < 6 ==> AllDigits(code[k])
    }

    constructor ()
      ensures Valid()
      ensures phoneNumber == [] && code == ["", "", "", "", "", ""] && confirm.None?
    {
      phoneNumber := [];
      code := ["", "", "", "", "", ""];
      confirm := None;
    }

    /** `!confirm ? <phone entry> : <code entry>`. */
    function CurrentMode(): (m: Mode)
      reads this
      ensures m == PhoneEntry <==> confirm.None?
    {
      if confirm.None? then PhoneEntry else CodeEntry
    }

    /** Typing in the phone field. */
    method ChangePhone(text: string)
      modifies this`phoneNumber
      ensures phoneNumber == text
    {
      phoneNumber := text;
    }

    /**
     * `signInWithPhoneNumber`: `request` is the number sent to the
     * provider, if any; `answer` is what the provider replies. A number
     * that is not ten digits sends nothing and keeps the screen as it is;
     * a failed request only alerts.
     */
    method SignIn(answer: SendCodeResult) returns (request: Option<string>)
      modifies this`confirm
      ensures request.Some? <==> |phoneNumber| == 10 && AllDigits(phoneNumber)
      ensures request.Some? ==> request.value == FormattedPhone(phoneNumber)
      ensures request.None? ==> confirm == old(confirm)
      ensures request.Some? && answer.CodeSent? ==> confirm == Some(answer.confirmation)
      ensures request.Some? && answer.SendFailed? ==> confirm == old(confirm)
    {
      if !PhonePattern(phoneNumber) {
        request := None;
        return;
      }
      request := Some(FormattedPhone(phoneNumber));
      if answer.CodeSent? {
        confirm := Some(answer.confirmation);
      }
    }

    /** `handleCodeChange(index, value)`: the slot update and the slot to focus next, if any. */
    method ChangeCode(index: nat, value: string) returns (focus: Option<nat>)
      requires Valid() && index < 6
      modifies this`code
      ensures Valid()
      ensures code == CodeAfterChange(old(code), index, value)
      ensures focus == FocusAfterChange(index, value)
    {
      SlotsStayDigits(code, index, value);
      code := CodeAfterChange(code, index, value);
      focus := FocusAfterChange(index, value);
    }

    /**
     * `confirmCode`: `submitted` is the code given to the provider, if any,
     * and `nav` the navigation performed, if any. `answer` and `lookup` are
     * the provider's and the profile store's replies. A code of the wrong
     * length is not submitted, and a submitted one is six digits because
     * every slot holds digits only; with no pending verification the call throws
     * before submitting; any failure navigates nowhere. The screen's state
     * does not change.
     */
    method ConfirmCode(answer: ConfirmResult, lookup: ProfileLookup)
      returns (submitted: Option<string>, nav: Option<Navigation>)
      requires Valid()
      ensures submitted.Some? ==> |submitted.value| == 6 && AllDigits(submitted.value)
      ensures submitted.Some? <==> |Concat(code)| == 6 && confirm.Some?
      ensures submitted.Some? ==> submitted.value == Concat(code)
      ensures nav.Some? <==> submitted.Some? && answer.Confirmed? && !lookup.LookupFailed?
      ensures nav.Some? ==> nav.value == PostConfirmNavigation(answer.uid, lookup.ProfileFound?)
      ensures nav.Some? ==> nav.value.route in Routes
    {
      var entered := Concat(code);
      submitted, nav := None, None;
      if !CodeAccepted(code) {
        return;
      }
      if confirm.None? {
        return;
      }
      AcceptedCodeIsSixDigits(code);
      submitted := Some(entered);
      if answer.ConfirmFailed? {
        return;
      }
      match lookup
      case ProfileFound =>
        nav := Some(PostConfirmNavigation(answer.uid, true));
      case ProfileMissing =>
        nav := Some(PostConfirmNavigation(answer.uid, false));
      case LookupFailed =>
    }
  }
}
