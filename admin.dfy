/** The admin gate (`AdminPage` in src/app/admin/page.tsx): the entered
    e-mail, trimmed and lower-cased, must be the administrator's address. */
module Admin {
  import opened Common
  import opened Text

  const AdminEmail: string := "admin@example.com"
  const AccessDeniedMessage: string := "Access denied. Only admins can access this page directly."

  /** `email.trim().toLowerCase() === 'admin@example.com'` */
  predicate IsAdmin(email: string) {
    ToLower(Trim(email)) == AdminEmail
  }

  // ---- properties ---------------------------------------------------------

  /** Whitespace around the entry does not change the outcome. */
  lemma AdminIgnoresPadding(w1: string, email: string, w2: string)
    requires AllSpace(w1) && AllSpace(w2)
    ensures IsAdmin(w1 + email + w2) <==> IsAdmin(email)
  {
    TrimPadding(w1, email, w2);
  }

  /** Letter case does not change the outcome: entries that lower-case alike
      are decided alike. */
  lemma AdminIgnoresCase(e1: string, e2: string)
    requires ToLower(e1) == ToLower(e2)
    ensures IsAdmin(e1) <==> IsAdmin(e2)
  {
    TrimLower(e1);
    TrimLower(e2);
  }

  /** An entry is granted exactly when, after lower-casing, it is the
      administrator's address with whitespace around it. */
  lemma AdminIff(email: string)
    ensures IsAdmin(email) <==>
      exists i, j :: 0 <= i <= j <= |email| && AllSpace(email[..i]) && AllSpace(email[j..])
                     && ToLower(email[i..j]) == AdminEmail
  {
    var target := AdminEmail;
    assert target[0] == 'a' && target[|target| - 1] == 'm';
    TrimmedLowerIff(email, target);
  }

  /** The same, for any target without whitespace at its ends. */
  lemma TrimmedLowerIff(email: string, target: string)
    requires target != [] && !IsSpace(target[0]) && !IsSpace(target[|target| - 1])
    ensures ToLower(Trim(email)) == target <==>
      exists i, j :: 0 <= i <= j <= |email| && AllSpace(email[..i]) && AllSpace(email[j..])
                     && ToLower(email[i..j]) == target
  {
    var i, j := TrimSlice(email);
    if exists i', j' :: 0 <= i' <= j' <= |email| && AllSpace(email[..i']) && AllSpace(email[j'..])
                        && ToLower(email[i'..j']) == target {
      var i', j' :| 0 <= i' <= j' <= |email| && AllSpace(email[..i']) && AllSpace(email[j'..])
                    && ToLower(email[i'..j']) == target;
      PaddedCoreTrims(email, target, i', j');
    }
  }

  /** A core that lowers to such a target, with whitespace around it, trims
      and lowers to the target. */
  lemma PaddedCoreTrims(email: string, target: string, i: int, j: int)
    requires target != [] && !IsSpace(target[0]) && !IsSpace(target[|target| - 1])
    requires 0 <= i <= j <= |email| && AllSpace(email[..i]) && AllSpace(email[j..])
    requires ToLower(email[i..j]) == target
    ensures ToLower(Trim(email)) == target
  {
    var core := email[i..j];
    assert email == email[..i] + core + email[j..];
    TrimPadding(email[..i], core, email[j..]);
    CoreUnpadded(core, target);
  }

  /** Whatever lower-cases to such a target has no whitespace at its ends. */
  lemma CoreUnpadded(core: string, target: string)
    requires target != [] && !IsSpace(target[0]) && !IsSpace(target[|target| - 1])
    requires ToLower(core) == target
    ensures Trim(core) == core
  {
    assert ToLower(core)[0] == LowerChar(core[0]);
    assert ToLower(core)[|core| - 1] == LowerChar(core[|core| - 1]);
    if IsSpace(core[0]) { LowerSpace(core[0]); }
    if IsSpace(core[|core| - 1]) { LowerSpace(core[|core| - 1]); }
    TrimUnpadded(core);
  }

  lemma AdminCoreUnpadded(core: string)
    requires ToLower(core) == AdminEmail
    ensures Trim(core) == core
  {
    var target := AdminEmail;
    assert target[0] == 'a' && target[|target| - 1] == 'm';
    CoreUnpadded(core, target);
  }

  /** The example entry "  ADMIN@Example.COM " (two spaces, the address in
      mixed case, one space) is granted. */
  // The pieces come in as parameters fixed by `requires` rather than as one
  // literal, so the verifier does not unfold `Trim` over the literal.
  lemma AdminExample(before: string, core: string, after: string)
    requires before == "  " && core == "ADMIN@Example.COM" && after == " "
    ensures IsAdmin(before + core + after)
  {
    assert AllSpace(before) && AllSpace(after);
    ExampleCoreLowers(core);
    AdminCoreUnpadded(core);
    AdminIgnoresPadding(before, core, after);
  }

  // A parameter for the same reason as in `AdminExample`.
  lemma ExampleCoreLowers(core: string)
    requires core == "ADMIN@Example.COM"
    ensures ToLower(core) == AdminEmail
  {
  }

  // ---- the component ------------------------------------------------------

  class AdminPage {
    var email: string
    var error: Option<string>

    constructor ()
      ensures email == "" && error == None
    {
      email, error := "", None;
    }

    method SetEmail(value: string)
      modifies this`email
      ensures email == value
    {
      email := value;
    }

    /** `handleAdminAccess`: granted goes to the home route and leaves any
        earlier error in place; denied sets the error and stays. */
    method HandleAdminAccess(browser: Browser)
      modifies this`error, browser`route
      ensures IsAdmin(email) ==> browser.route == Some(Home) && error == old(error)
      ensures !IsAdmin(email) ==> error == Some(AccessDeniedMessage) && browser.route == old(browser.route)
      ensures browser.storedUser == old(browser.storedUser)
    {
      var isAdmin := IsAdmin(email);
      if isAdmin {
        browser.route := Some(Home);
      } else {
        error := Some(AccessDeniedMessage);
      }
    }

    /** `handleBackToLogin` only navigates. */
    method HandleBackToLogin(browser: Browser)
      modifies browser`route
      ensures browser.route == Some(LoginRoute)
      ensures browser.storedUser == old(browser.storedUser)
      ensures email == old(email) && error == old(error)
    {
      browser.route := Some(LoginRoute);
    }
  }
}
