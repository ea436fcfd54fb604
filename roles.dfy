/** The three administrator checks of the app, written in three places. The
    navigator's and the profile screen's checks accept the same roles; the
    admin screens' exact test disagrees with both. */
module Roles {
  import opened Base
  import opened Text

  const AdminRole := "administrador"
  const ShortAdminRole := "admin"

  /** src/routes/AppStack.tsx: `user?.role?.toLowerCase().trim() === "administrador"` */
  predicate StackIsAdmin(role: Option<string>) {
    role.Some? && Trim(Lower(role.value)) == AdminRole
  }

  /** src/screens/UserScreen/UserScreen.tsx `isAdminRole`:
      `(role ?? "").toString().trim().toLowerCase() === "administrador"` */
  predicate IsAdminRole(role: Option<string>) {
    Lower(Trim(OrEmpty(role))) == AdminRole
  }

  /** The admin screens' guard: `role === "administrador" || role === "admin"`. */
  predicate ScreenIsAdmin(role: Option<string>) {
    role == Some(AdminRole) || role == Some(ShortAdminRole)
  }

  /** The navigator's check (lower, then trim) and the profile screen's
      check (trim, then lower) accept the same roles. */
  lemma StackAgreesWithProfile(role: Option<string>)
    ensures StackIsAdmin(role) <==> IsAdminRole(role)
  {
    if role.Some? {
      TrimLowerCommute(role.value);
    } else {
      assert Lower(Trim("")) == "";
    }
  }

  /** Every role the admin screens accept, except "admin", is accepted by
      the navigator. */
  lemma ScreenAdminIsStackAdmin(role: Option<string>)
    requires ScreenIsAdmin(role) && role != Some(ShortAdminRole)
    ensures StackIsAdmin(role)
  {
    var s := role.value;
    assert Lower(s) == s by {
      forall i | 0 <= i < |s| ensures Lower(s)[i] == s[i] { }
    }
    TrimNoSurroundingSpace(s);
  }

  /** The disagreement: "admin" opens the admin screens' guard but the
      navigator never registers the Admin stack for it, and " Administrador "
      gets the Admin stack registered while the admin screens refuse it. */
  lemma AdminChecksDisagree()
    ensures ScreenIsAdmin(Some("admin")) && !StackIsAdmin(Some("admin")) && !IsAdminRole(Some("admin"))
    ensures StackIsAdmin(Some(" Administrador ")) && !ScreenIsAdmin(Some(" Administrador "))
  {
    ShortRoleRejected();
    StackAcceptsPadded();
    ScreenRejectsPadded();
  }

  /** The admin screens compare the role exactly, so padding or capitals
      are refused. */
  lemma ScreenRejectsPadded()
    ensures !ScreenIsAdmin(Some(" Administrador "))
  {
    var padded: string := " Administrador ";
    assert |padded| == 15;
    assert padded != AdminRole && padded != ShortAdminRole;
  }

  /** "admin" is neither the navigator's nor the profile screen's
      administrator. */
  lemma ShortRoleRejected()
    ensures !StackIsAdmin(Some("admin")) && !IsAdminRole(Some("admin"))
  {
    var short: string := "admin";
    TrimNoSurroundingSpace(short);
    assert Lower(short) == short by {
      forall i | 0 <= i < |short| ensures Lower(short)[i] == short[i] { }
    }
    assert Trim(Lower(short)) != AdminRole by {
      assert |Trim(Lower(short))| == 5;
    }
    StackAgreesWithProfile(Some(short));
  }

  /** The navigator's check on sample role strings. */
  lemma StackExamples()
    ensures StackIsAdmin(Some("administrador"))
    ensures StackIsAdmin(Some("ADMINISTRADOR"))
    ensures StackIsAdmin(Some(" Administrador "))
    ensures !StackIsAdmin(Some("user")) && !StackIsAdmin(Some("")) && !StackIsAdmin(None)
  {
    StackAcceptsLower();
    StackAcceptsUpper();
    StackAcceptsPadded();
    StackRejectsUser();
    StackRejectsEmpty();
  }

  lemma StackAcceptsLower()
    ensures Trim(Lower("administrador")) == AdminRole
  {
    LowerAdmin("administrador");
  }

  lemma StackAcceptsUpper()
    ensures Trim(Lower("ADMINISTRADOR")) == AdminRole
  {
    LowerAdmin("ADMINISTRADOR");
  }

  lemma StackRejectsEmpty()
    ensures Trim(Lower("")) != AdminRole
  {
    assert Trim(Lower("")) == "";
  }

  lemma StackAcceptsPadded()
    ensures Trim(Lower(" Administrador ")) == AdminRole
  {
    var padded: string := " Administrador ";
    assert padded == [' '] + "Administrador" + [' '];
    LowerConcat([' '] + "Administrador", [' ']);
    LowerConcat([' '], "Administrador");
    var word: string := "Administrador";
    assert Lower(word) == AdminRole by {
      forall i | 0 <= i < |word| ensures Lower(word)[i] == AdminRole[i] { }
    }
    assert Lower([' ']) == [' '];
    TrimPadded(AdminRole);
  }

  /** One space on each side of a word is cut off by Trim. */
  lemma TrimPadded(core: string)
    requires core != [] && !IsSpace(core[0]) && !IsSpace(core[|core| - 1])
    ensures Trim([' '] + core + [' ']) == core
  {
    var s := [' '] + core + [' '];
    assert s[1..] == core + [' '];
    assert TrimStart(s) == TrimStart(core + [' ']) == core + [' '];
    assert (core + [' '])[..|core|] == core;
    assert TrimEnd(core + [' ']) == TrimEnd(core) == core;
  }

  lemma StackRejectsUser()
    ensures Trim(Lower("user")) != AdminRole
  {
    var user: string := "user";
    assert |Trim(Lower(user))| <= 4;
  }

  lemma LowerAdmin(s: string)
    requires |s| == 13
    requires forall i :: 0 <= i < 13 ==> LowerChar(s[i]) == AdminRole[i]
    ensures Trim(Lower(s)) == AdminRole
  {
    assert Lower(s) == AdminRole;
    TrimNoSurroundingSpace(AdminRole);
  }
}
