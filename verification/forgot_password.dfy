/**
 * The password-recovery page (`src/pages/account/forgot-password.tsx`): a step machine
 * email → otp → reset → success. Each form validates its input; a valid submission sets
 * `loading` and starts a 1.5 s timer whose completion moves to the next step. The source
 * copies the six-cell code array and overwrites one cell of the copy; the model's array,
 * updated in place, stands for that copy.
 */
module ForgotPassword {
  import opened Text

  datatype Step = EmailStep | OtpStep | ResetStep | SuccessStep

  /** The progress list `['email', 'otp', 'reset', 'success']`. */
  const Steps: seq<Step> := [EmailStep, OtpStep, ResetStep, SuccessStep]

  /** `['email', 'otp', 'reset', 'success'].indexOf(step)`. */
  function StepIndex(step: Step): (i: nat)
    ensures i < |Steps| && Steps[i] == step
  {
    match step
    case EmailStep => 0
    case OtpStep => 1
    case ResetStep => 2
    case SuccessStep => 3
  }

  /** Dot `i` of the progress bar is highlighted. */
  predicate DotActive(step: Step, i: nat) {
    StepIndex(step) >= i
  }

  /** Dot `i` of the progress bar shows a check mark. */
  predicate DotDone(step: Step, i: nat) {
    StepIndex(step) > i
  }

  /**
   * The progress bar reads left to right: the done dots are the ones before the current
   * step, the active ones those up to it, so exactly one dot is active and not done.
   */
  lemma ProgressDots(step: Step)
    ensures forall i: nat :: DotDone(step, i) ==> DotActive(step, i)
    ensures forall i: nat :: i < |Steps| ==> (DotActive(step, i) && !DotDone(step, i) <==> Steps[i] == step)
  {
    forall i: nat | i < |Steps|
      ensures DotActive(step, i) && !DotDone(step, i) <==> Steps[i] == step
    {
      if Steps[i] == step {
        assert StepIndex(Steps[i]) == i;
      }
    }
  }

  const EmailError := "Veuillez entrer une adresse email valide."
  const CodeError := "Veuillez entrer le code a 6 chiffres."
  const ShortPasswordError := "Le mot de passe doit contenir au moins 6 caracteres."
  const MismatchError := "Les mots de passe ne correspondent pas."

  /** A pending `setTimeout` callback: finish a submission by moving to `to`, or end the resend wait. */
  datatype Timer = Advance(to: Step) | StopLoading

  /** The number of characters in the code cells together. */
  lemma {:induction false} CellsFilled(cells: seq<string>)
    requires forall i :: 0 <= i < |cells| ==> |cells[i]| <= 1
    ensures Sum(cells) <= |cells|
    ensures Sum(cells) == |cells| <==> forall i :: 0 <= i < |cells| ==> cells[i] != ""
  {
    if cells != [] {
      CellsFilled(cells[1..]);
      assert forall i :: 1 <= i < |cells| ==> cells[i] == cells[1..][i - 1];
    }
  }

  /** `otp.join('')` has six characters exactly when every one-character cell is filled. */
  lemma CodeComplete(cells: seq<string>)
    requires |cells| == 6 && forall i :: 0 <= i < 6 ==> |cells[i]| <= 1
    ensures |Join(cells, "")| == 6 <==> forall i :: 0 <= i < 6 ==> cells[i] != ""
  {
    JoinLength(cells, "");
    CellsFilled(cells);
  }

  /**
   * `r` is `s` without its first non-digit, the rest kept in order; a string of digits
   * is its own result.
   */
  ghost predicate DropsFirstNonDigit(s: string, r: string) {
    && ((forall i :: 0 <= i < |s| ==> IsDigit(s[i])) ==> r == s)
    && ((exists i :: 0 <= i < |s| && !IsDigit(s[i])) ==>
          exists i :: 0 <= i < |s| && !IsDigit(s[i]) && (forall j :: 0 <= j < i ==> IsDigit(s[j])) && r == s[..i] + s[i + 1..])
    && ((exists i :: 0 <= i < |s| && !IsDigit(s[i])) ==> |r| == |s| - 1)
  }

  /** Digits after a leading digit make a longer run of digits. */
  lemma DigitsAfterHead(s: string, n: nat)
    requires 0 < |s| && IsDigit(s[0]) && n < |s| && forall j :: 0 <= j < n ==> IsDigit(s[1..][j])
    ensures forall j :: 0 <= j <= n ==> IsDigit(s[j])
  {
    forall j | 0 < j <= n ensures IsDigit(s[j]) {
      assert s[j] == s[1..][j - 1];
    }
  }

  /** Removing a character behind the head commutes with putting the head back. */
  lemma SpliceAfterHead(s: string, i: nat)
    requires i + 1 < |s|
    ensures [s[0]] + (s[1..][..i] + s[1..][i + 1..]) == s[..i + 1] + s[i + 2..]
  {
    assert s[..i + 1] == [s[0]] + s[1..][..i];
    assert s[i + 2..] == s[1..][i + 1..];
  }

  /** A leading non-digit is the one removed. */
  lemma DropsAtHead(s: string)
    requires s != [] && !IsDigit(s[0])
    ensures DropsFirstNonDigit(s, s[1..])
  {
    assert s[..0] + s[1..] == s[1..];
  }

  /** A leading digit is kept in front of whatever the rest becomes. */
  lemma DropsAfterDigit(s: string, t: string)
    requires s != [] && IsDigit(s[0]) && DropsFirstNonDigit(s[1..], t)
    ensures DropsFirstNonDigit(s, [s[0]] + t)
  {
    var u := s[1..];
    if forall i :: 0 <= i < |u| ==> IsDigit(u[i]) {
      DigitsAfterHead(s, |u|);
      assert [s[0]] + u == s;
    } else {
      var i :| 0 <= i < |u| && !IsDigit(u[i]) && (forall j :: 0 <= j < i ==> IsDigit(u[j])) && t == u[..i] + u[i + 1..];
      DigitsAfterHead(s, i);
      SpliceAfterHead(s, i);
      assert s[i + 1] == u[i];
    }
  }

  /**
   * The `onChange` of a code cell: `value.replace(/\D/, '')` removes the first non-digit and
   * keeps everything else in order; a string of digits is unchanged.
   */
  function DropFirstNonDigit(s: string): (r: string)
    ensures (forall i :: 0 <= i < |s| ==> IsDigit(s[i])) ==> r == s
    ensures (exists i :: 0 <= i < |s| && !IsDigit(s[i])) ==>
      exists i :: 0 <= i < |s| && !IsDigit(s[i]) && (forall j :: 0 <= j < i ==> IsDigit(s[j])) && r == s[..i] + s[i + 1..]
    ensures (exists i :: 0 <= i < |s| && !IsDigit(s[i])) ==> |r| == |s| - 1
  {
    if s == [] then []
    else if !IsDigit(s[0]) then
      DropsAtHead(s);
      s[1..]
    else
      var t := DropFirstNonDigit(s[1..]);
      DropsAfterDigit(s, t);
      [s[0]] + t
  }

  class ForgotPasswordPage {
    var step: Step
    var email: string
    const otp: array<string>
    var password: string
    var confirmPassword: string
    var loading: bool
    var error: string
    /** The callbacks scheduled with `setTimeout`, oldest first; they all wait the same 1.5 s. */
    var timers: seq<Timer>

    /**
     * Six cells of at most one character each; every pending completion leads to the
     * current step or the next one, and later completions never lead to an earlier step.
     */
    ghost predicate Valid()
      reads this`step, this`timers, otp
    {
      && otp.Length == 6
      && (forall i :: 0 <= i < 6 ==> |otp[i]| <= 1)
      && (forall i :: 0 <= i < |timers| && timers[i].Advance? ==>
            StepIndex(step) <= StepIndex(timers[i].to) <= StepIndex(step) + 1)
      && (forall i, j :: 0 <= i < j < |timers| && timers[i].Advance? && timers[j].Advance? ==>
            StepIndex(timers[i].to) <= StepIndex(timers[j].to))
    }

    /** The page's initial state. */
    constructor ()
      ensures Valid() && fresh(otp)
      ensures step == EmailStep && otp[..] == ["", "", "", "", "", ""]
      ensures email == "" && password == "" && confirmPassword == ""
      ensures !loading && error == "" && timers == []
    {
      step := EmailStep;
      email := "";
      otp := new string[6](_ => "");
      password := "";
      confirmPassword := "";
      loading := false;
      error := "";
      timers := [];
    }

    method SetEmail(value: string)
      requires Valid()
      modifies this
      ensures Valid() && email == value
      ensures step == old(step) && loading == old(loading) && error == old(error) && timers == old(timers)
      ensures password == old(password) && confirmPassword == old(confirmPassword)
    {
      email := value;
    }

    method SetPassword(value: string, confirm: string)
      requires Valid()
      modifies this
      ensures Valid() && password == value && confirmPassword == confirm
      ensures step == old(step) && loading == old(loading) && error == old(error) && timers == old(timers)
      ensures email == old(email)
    {
      password := value;
      confirmPassword := confirm;
    }

    /**
     * `handleEmailSubmit`, reachable on the email step: a blank address or one without
     * `@` sets the error and nothing else; a valid one clears it, sets `loading` and
     * schedules the move to the code step.
     */
    method HandleEmailSubmit()
      requires Valid() && step == EmailStep
      modifies this
      ensures Valid() && step == old(step)
      ensures var ok := Trim(email) != "" && '@' in email;
        && (!ok ==> error == EmailError && loading == old(loading) && timers == old(timers))
        && (ok ==> error == "" && loading && timers == old(timers) + [Advance(OtpStep)])
      ensures email == old(email) && password == old(password) && confirmPassword == old(confirmPassword)
    {
      error := "";
      ContainsChar(email, '@');
      if Trim(email) == "" || !Contains(email, "@") {
        error := EmailError;
        return;
      }
      loading := true;
      assert timers == old(timers) && Valid();
      Schedule(Advance(OtpStep));
    }

    /** Appends a completion that leads to the current step or the next one. */
    method Schedule(t: Timer)
      requires Valid()
      requires t.Advance? ==> StepIndex(t.to) == StepIndex(step) + 1
      modifies this
      ensures Valid() && timers == old(timers) + [t]
      ensures step == old(step) && loading == old(loading) && error == old(error)
      ensures email == old(email) && password == old(password) && confirmPassword == old(confirmPassword)
    {
      timers := timers + [t];
    }

    /**
     * `handleOtpChange(index, value)`: a value longer than one character is ignored;
     * otherwise cell `index` takes it and the other five cells keep theirs.
     */
    method HandleOtpChange(index: nat, value: string)
      requires Valid() && step == OtpStep && index < 6
      modifies otp
      ensures Valid()
      ensures |value| > 1 ==> otp[..] == old(otp[..])
      ensures |value| <= 1 ==> otp[..] == old(otp[..])[index := value]
    {
      if |value| > 1 {
        return;
      }
      otp[index] := value;
    }

    /**
     * `handleOtpSubmit`: the code advances exactly when its six cells are all filled;
     * otherwise the error is set and nothing else changes.
     */
    method HandleOtpSubmit()
      requires Valid() && step == OtpStep
      modifies this
      ensures Valid() && step == old(step)
      ensures var ok := forall i :: 0 <= i < 6 ==> otp[i] != "";
        && (!ok ==> error == CodeError && loading == old(loading) && timers == old(timers))
        && (ok ==> error == "" && loading && timers == old(timers) + [Advance(ResetStep)])
      ensures email == old(email) && password == old(password) && confirmPassword == old(confirmPassword)
    {
      error := "";
      var code := Join(otp[..], "");
      CodeComplete(otp[..]);
      if |code| != 6 {
        error := CodeError;
        return;
      }
      loading := true;
      Schedule(Advance(ResetStep));
    }

    /**
     * `handleResetSubmit`: a password shorter than six characters is refused first, then
     * a confirmation that differs; otherwise the move to the success step is scheduled.
     */
    method HandleResetSubmit()
      requires Valid() && step == ResetStep
      modifies this
      ensures Valid() && step == old(step)
      ensures |password| < 6 ==> error == ShortPasswordError && loading == old(loading) && timers == old(timers)
      ensures |password| >= 6 && password != confirmPassword ==>
        error == MismatchError && loading == old(loading) && timers == old(timers)
      ensures |password| >= 6 && password == confirmPassword ==>
        error == "" && loading && timers == old(timers) + [Advance(SuccessStep)]
      ensures email == old(email) && password == old(password) && confirmPassword == old(confirmPassword)
    {
      error := "";
      if |password| < 6 {
        error := ShortPasswordError;
        return;
      }
      if password != confirmPassword {
        error := MismatchError;
        return;
      }
      loading := true;
      Schedule(Advance(SuccessStep));
    }

    /** `resendOtp`: all six cells are emptied and `loading` is set until its timer ends. */
    method ResendOtp()
      requires Valid() && step == OtpStep
      modifies this, otp
      ensures Valid() && step == old(step)
      ensures otp[..] == ["", "", "", "", "", ""]
      ensures loading && timers == old(timers) + [StopLoading]
      ensures error == old(error)
      ensures email == old(email) && password == old(password) && confirmPassword == old(confirmPassword)
    {
      forall i | 0 <= i < 6 {
        otp[i] := "";
      }
      loading := true;
      Schedule(StopLoading);
    }

    /**
     * The oldest timer fires: `loading` ends and, for a submission, the step moves on.
     * The step never goes back.
     */
    method FireTimer()
      requires Valid() && |timers| > 0
      modifies this
      ensures Valid() && !loading && timers == old(timers)[1..]
      ensures old(timers)[0].Advance? ==> step == old(timers)[0].to
      ensures old(timers)[0].StopLoading? ==> step == old(step)
      ensures StepIndex(old(step)) <= StepIndex(step) <= StepIndex(old(step)) + 1
      ensures error == old(error) && otp[..] == old(otp[..])
      ensures email == old(email) && password == old(password) && confirmPassword == old(confirmPassword)
    {
      var t := timers[0];
      timers := timers[1..];
      loading := false;
      if t.Advance? {
        step := t.to;
      }
    }
  }
}
