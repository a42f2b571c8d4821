/**
 * The simulated Google sign-in dialog: a step machine (account list, then
 * email, then password) whose submit and account clicks act after a delay.
 * A pending delayed callback is a timer value holding what the handler
 * captured when it was scheduled.
 */
module GoogleLogin {
  import opened Wrappers
  import opened Text

  datatype Step = Accounts | EmailStep | PasswordStep

  /** Steps in the order the dialog goes through them. */
  function Rank(s: Step): nat {
    match s
    case Accounts => 0
    case EmailStep => 1
    case PasswordStep => 2
  }

  datatype Account = Account(name: string, email: string, letter: string, color: string)

  /** The accounts the first step lists. */
  const MockAccounts: seq<Account> := [Account("John Doe", "john.doe@gmail.com", "J", "bg-green-600")]

  /** A scheduled callback: an account click, or a submit that captured the step and email of its render. */
  datatype Timer = AccountTimer(accountEmail: string) | NextTimer(atStep: Step, email: string)

  /** What a callback does when it runs: the step it sets and the email it passes to `onLogin`, if any. */
  datatype Effect = Effect(step: Step, login: Option<string>)

  /**
   * A callback run at step current. An account click signs in with its
   * email. A submit on the email step advances to the password step exactly
   * when the trimmed email contains '@', and never signs in; a submit on the
   * password step signs in with the untrimmed email.
   */
  function Run(t: Timer, current: Step): (e: Effect)
    ensures t.AccountTimer? ==> e == Effect(current, Some(t.accountEmail))
    ensures t.NextTimer? && t.atStep == EmailStep ==>
      e.login.None? && (e.step == if '@' in Trim(t.email) then PasswordStep else current)
    ensures t.NextTimer? && t.atStep != EmailStep ==> e == Effect(current, Some(t.email))
  {
    match t
    case AccountTimer(email) => Effect(current, Some(email))
    case NextTimer(atStep, email) =>
      if atStep == EmailStep then
        Effect(if '@' in Trim(email) then PasswordStep else current, None)
      else Effect(current, Some(email))
  }

  /** Trimming is irrelevant to the '@' test: only the email's characters matter. */
  lemma EmailTestIgnoresTrim(email: string, current: Step)
    ensures Run(NextTimer(EmailStep, email), current).step == if '@' in email then PasswordStep else current
  {
    TrimKeeps(email, '@');
  }

  /**
   * The form's `required` input on the current step holds something: the
   * browser submits the form only then.
   */
  predicate Filled(step: Step, email: string, password: string)
  {
    match step
    case Accounts => true
    case EmailStep => email != ""
    case PasswordStep => password != ""
  }

  /** A callback never moves the dialog back once it is past the account list. */
  lemma RunNeverGoesBack(t: Timer, current: Step)
    requires current != Accounts
    ensures Rank(Run(t, current).step) >= Rank(current)
  {
  }

  class Dialog {
    var step: Step
    var email: string
    var password: string
    var isLoading: bool
    /** Callbacks scheduled and not yet run. */
    var pending: seq<Timer>

    ghost predicate Valid()
      reads this
    {
      forall k :: 0 <= k < |pending| ==> pending[k].NextTimer? ==> pending[k].atStep != Accounts
    }

    /** The dialog opens on the account list, not loading. */
    constructor ()
      ensures Valid()
      ensures step == Accounts && email == "" && password == "" && !isLoading && pending == []
    {
      step := Accounts;
      email := "";
      password := "";
      isLoading := false;
      pending := [];
    }

    /** `handleAccountClick` on the k-th listed account. */
    method ClickAccount(k: nat)
      requires Valid() && step == Accounts && k < |MockAccounts|
      modifies this
      ensures Valid() && isLoading
      ensures pending == old(pending) + [AccountTimer(MockAccounts[k].email)]
      ensures step == old(step) && email == old(email) && password == old(password)
    {
      isLoading := true;
      pending := pending + [AccountTimer(MockAccounts[k].email)];
    }

    /** "Use another account": from the account list to the email step. */
    method UseAnotherAccount()
      requires Valid() && step == Accounts
      modifies this
      ensures Valid() && step == EmailStep
      ensures email == old(email) && password == old(password) && isLoading == old(isLoading) && pending == old(pending)
    {
      step := EmailStep;
    }

    method TypeEmail(s: string)
      modifies this
      ensures email == s
      ensures step == old(step) && password == old(password) && isLoading == old(isLoading) && pending == old(pending)
    {
      email := s;
    }

    method TypePassword(s: string)
      modifies this
      ensures password == s
      ensures step == old(step) && email == old(email) && isLoading == old(isLoading) && pending == old(pending)
    {
      password := s;
    }

    /**
     * `handleNext`, behind the form's `required` field: the form exists only on
     * the email and password steps, and an empty field on the current step
     * blocks the submission, so nothing changes.
     */
    method Submit()
      requires Valid() && step != Accounts
      modifies this
      ensures Valid()
      ensures !Filled(old(step), old(email), old(password)) ==>
        isLoading == old(isLoading) && pending == old(pending)
      ensures Filled(old(step), old(email), old(password)) ==>
        isLoading && pending == old(pending) + [NextTimer(old(step), old(email))]
      ensures step == old(step) && email == old(email) && password == old(password)
    {
      if Filled(step, email, password) {
        isLoading := true;
        pending := pending + [NextTimer(step, email)];
      }
    }

    /** The k-th pending callback runs: loading ends, and the step and `onLogin` follow Run. */
    method Fire(k: nat) returns (login: Option<string>)
      requires Valid() && k < |pending|
      modifies this
      ensures Valid() && !isLoading
      ensures pending == old(pending[..k] + pending[k + 1..])
      ensures Effect(step, login) == Run(old(pending[k]), old(step))
      ensures Rank(step) >= Rank(old(step))
      ensures email == old(email) && password == old(password)
    {
      var t := pending[k];
      pending := pending[..k] + pending[k + 1..];
      isLoading := false;
      match t
      case AccountTimer(accountEmail) =>
        login := Some(accountEmail);
      case NextTimer(atStep, capturedEmail) =>
        if atStep == EmailStep {
          if '@' in Trim(capturedEmail) {
            step := PasswordStep;
          }
          login := None;
        } else {
          login := Some(capturedEmail);
        }
    }
  }
}
