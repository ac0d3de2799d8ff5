/** The verify callback of the Google strategy in `googleAuthMiddleware.js`:
    find the account by Google id, else link the account with the profile's
    first email, else create one with a generated username. The random
    username suffix is an input in [0, 999]; store failures are inputs. */
module GoogleAuth {
  import opened Wrappers
  import opened Text
  import opened Http
  import opened AuthController

  /** The parts of the Google profile the callback reads. */
  datatype Profile = Profile(id: string, emails: seq<string>, displayName: string, photos: seq<string>)

  /** What the callback hands to `done`: a user, or an error. */
  datatype Outcome = Done(user: Account) | Errored

  /** `replace(/\s+/g, '.')`: every maximal run of white space becomes a single
      dot. */
  function Dotted(s: string): (r: string)
    ensures NoSpace(r)
    ensures |r| <= |s|
    decreases |s|
  {
    if s == [] then []
    else if IsSpace(s[0]) then
      var rest := TrimStart(s);
      "." + Dotted(rest)
    else [s[0]] + Dotted(s[1..])
  }

  /** A name without white space keeps every character. */
  lemma {:induction false} DottedKeepsPlainName(s: string)
    requires NoSpace(s)
    ensures Dotted(s) == s
    decreases |s|
  {
    if s != [] {
      DottedKeepsPlainName(s[1..]);
    }
  }

  /** Dotting twice is dotting once. */
  lemma DottedIdempotent(s: string)
    ensures Dotted(Dotted(s)) == Dotted(s)
  {
    DottedKeepsPlainName(Dotted(s));
  }

  /** A white-space run at the start becomes one dot. */
  lemma DottedRun(w: string, b: string)
    requires w != [] && IsBlank(w)
    requires b == [] || !IsSpace(b[0])
    ensures Dotted(w + b) == "." + Dotted(b)
  {
    TrimStartAfterBlank(w, b);
    assert (w + b)[0] == w[0];
  }

  /** A leading non-space character is kept as it is. */
  lemma DottedCons(c: char, t: string)
    requires !IsSpace(c)
    ensures Dotted([c] + t) == [c] + Dotted(t)
  {
    assert ([c] + t)[1..] == t;
  }

  lemma Associate(x: string, y: string, z: string)
    ensures x + y + z == x + (y + z)
  {
  }

  /** The step of `DottedAppend` for a text starting with a non-space. */
  lemma DottedAppendCharStep(c: char, t: string, u: string)
    requires !IsSpace(c)
    requires Dotted(t + u) == Dotted(t) + Dotted(u)
    ensures Dotted([c] + t + u) == Dotted([c] + t) + Dotted(u)
  {
    DottedCons(c, t);
    DottedCons(c, t + u);
    Associate([c], t, u);
    Associate([c], Dotted(t), Dotted(u));
  }

  /** The step of `DottedAppend` for a text starting with white space but not
      made of it only. */
  lemma DottedAppendSpaceStep(a: string, u: string)
    requires a != [] && IsSpace(a[0]) && !IsBlank(a)
    requires Dotted(TrimStart(a) + u) == Dotted(TrimStart(a)) + Dotted(u)
    ensures Dotted(a + u) == Dotted(a) + Dotted(u)
  {
    TrimStartAppend(a, u);
    assert (a + u)[0] == a[0];
    Associate(".", Dotted(TrimStart(a)), Dotted(u));
  }

  /** Dotting a text that ends in a non-space, followed by anything, dots the
      two parts separately: no run crosses the boundary. */
  lemma {:induction false} DottedAppend(a: string, u: string)
    requires a == [] || !IsSpace(a[|a| - 1])
    ensures Dotted(a + u) == Dotted(a) + Dotted(u)
    decreases |a|
  {
    if a == [] {
      assert a + u == u;
    } else if IsSpace(a[0]) {
      assert !IsBlank(a) by {
        assert !IsSpace(a[|a| - 1]);
      }
      var ta := TrimStart(a);
      assert ta != [] && ta[|ta| - 1] == a[|a| - 1];
      DottedAppend(ta, u);
      DottedAppendSpaceStep(a, u);
    } else {
      var t := a[1..];
      DottedAppend(t, u);
      DottedAppendCharStep(a[0], t, u);
      assert [a[0]] + t == a;
    }
  }

  /** Every white-space run becomes exactly one dot: a run `w` between a part
      that ends in a non-space (or is empty) and a part that starts with one
      (or is empty) is replaced by a single `.`. */
  lemma DottedJoin(a: string, w: string, b: string)
    requires a == [] || !IsSpace(a[|a| - 1])
    requires w != [] && IsBlank(w)
    requires b == [] || !IsSpace(b[0])
    ensures Dotted(a + w + b) == Dotted(a) + "." + Dotted(b)
  {
    Associate(a, w, b);
    DottedAppend(a, w + b);
    DottedRun(w, b);
    Associate(Dotted(a), ".", Dotted(b));
  }

  /** The characters of `s` that are neither white space nor a dot, in order. */
  function Letters(s: string): (r: string)
    ensures |r| <= |s|
    ensures forall i :: 0 <= i < |r| ==> !IsSpace(r[i]) && r[i] != '.'
    decreases |s|
  {
    if s == [] then []
    else if IsSpace(s[0]) || s[0] == '.' then Letters(s[1..])
    else [s[0]] + Letters(s[1..])
  }

  lemma {:induction false} LettersOfBlank(s: string)
    requires IsBlank(s)
    ensures Letters(s) == []
    decreases |s|
  {
    if s != [] {
      LettersOfBlank(s[1..]);
    }
  }

  lemma {:induction false} LettersAppend(a: string, b: string)
    ensures Letters(a + b) == Letters(a) + Letters(b)
    decreases |a|
  {
    if a == [] {
      assert a + b == b;
    } else {
      assert (a + b)[1..] == a[1..] + b;
      LettersAppend(a[1..], b);
    }
  }

  /** Replacing the runs only adds or removes dots and white space: every other
      character of the display name survives, in order. */
  lemma {:induction false} DottedKeepsLetters(s: string)
    ensures Letters(Dotted(s)) == Letters(s)
    decreases |s|
  {
    if s == [] {
    } else if IsSpace(s[0]) {
      var rest := TrimStart(s);
      var gap := s[..|s| - |rest|];
      assert s == gap + rest;
      LettersAppend(gap, rest);
      LettersOfBlank(gap);
      DottedKeepsLetters(rest);
      assert ("." + Dotted(rest))[1..] == Dotted(rest);
    } else {
      assert ([s[0]] + Dotted(s[1..]))[1..] == Dotted(s[1..]);
      DottedKeepsLetters(s[1..]);
    }
  }

  /** The username of an account created from a profile: the display name with
      its white-space runs dotted, lower-cased, followed by the suffix. */
  function GeneratedUsername(displayName: string, suffix: nat): (r: string)
    requires suffix < 1000
    ensures NoSpace(r)
    ensures forall i :: 0 <= i < |r| ==> !IsUpperAscii(r[i])
    ensures |r| <= |displayName| + 3
    ensures |Decimal(suffix)| <= |r|
    ensures r[..|r| - |Decimal(suffix)|] == Lower(Dotted(displayName))
    ensures r[|r| - |Decimal(suffix)|..] == Decimal(suffix)
  {
    var name, digits := Lower(Dotted(displayName)), Decimal(suffix);
    assert forall i :: 0 <= i < |digits| ==> !IsUpperAscii(digits[i]) && !IsSpace(digits[i]) by {
      forall i | 0 <= i < |digits| ensures !IsUpperAscii(digits[i]) && !IsSpace(digits[i]) {
        assert IsDigit(digits[i]);
      }
    }
    name + digits
  }

  /** Relinking an account keeps the store's ids and emails distinct. */
  lemma RelinkKeepsDistinct(accounts: seq<Account>, k: nat, user: Account)
    requires Distinct(accounts) && k < |accounts|
    requires user.id == accounts[k].id && user.email == accounts[k].email
    ensures Distinct(accounts[k := user])
  {
    var r := accounts[k := user];
    forall i, j | 0 <= i < j < |r| ensures r[i].id != r[j].id && r[i].email != r[j].email {
      assert r[i].id == accounts[i].id && r[i].email == accounts[i].email;
      assert r[j].id == accounts[j].id && r[j].email == accounts[j].email;
    }
  }

  /** Appending an account with a fresh id and a fresh email keeps the store's
      ids and emails distinct. */
  lemma AppendKeepsDistinct(accounts: seq<Account>, user: Account)
    requires Distinct(accounts)
    requires forall i :: 0 <= i < |accounts| ==> accounts[i].id != user.id && accounts[i].email != user.email
    ensures Distinct(accounts + [user])
  {
    var r := accounts + [user];
    forall i, j | 0 <= i < j < |r| ensures r[i].id != r[j].id && r[i].email != r[j].email {
      assert r[i] == accounts[i];
    }
  }

  /** The account linked to a Google profile: the Google id set, and the
      picture replaced only when the profile has photos. */
  function Linked(before: Account, profile: Profile): (r: Account)
    ensures r.googleId == Some(profile.id)
    ensures r == before.(googleId := r.googleId, picture := r.picture)
    ensures r.picture == if profile.photos != [] then Some(profile.photos[0]) else before.picture
  {
    before.(
      googleId := Some(profile.id),
      picture := if profile.photos != [] then Some(profile.photos[0]) else before.picture)
  }

  /** What the verify callback hands to `done` and what the store then holds.
      `suffix` is `Math.floor(Math.random() * 1000)`, `newId` the id the store
      assigns, `readFails` whether a lookup throws and `saveFails` whether the
      save or the insert throws. */
  function Callback(accounts: seq<Account>, profile: Profile, suffix: nat, newId: UserId,
                    readFails: bool, saveFails: bool): (Outcome, seq<Account>)
    requires suffix < 1000
  {
    if readFails then (Errored, accounts)
    else match FindFirst(accounts, ByGoogleId(profile.id))
      case Some(k) => (Done(accounts[k]), accounts)
      case None =>
        if profile.emails == [] then (Errored, accounts)
        else match FindFirst(accounts, ByEmail(profile.emails[0]))
          case Some(k) =>
            var linked := Linked(accounts[k], profile);
            if saveFails then (Errored, accounts) else (Done(linked), accounts[k := linked])
          case None =>
            if profile.photos == [] || saveFails then (Errored, accounts)
            else
              var created := Account(newId, GeneratedUsername(profile.displayName, suffix), profile.emails[0],
                                     None, UserRole, Some(profile.id), Some(profile.photos[0]));
              (Done(created), accounts + [created])
  }

  /** An error leaves the store as it was; a user handed to `done` carries the
      profile's Google id and is in the store afterwards. */
  lemma {:induction false} CallbackOutcome(accounts: seq<Account>, profile: Profile, suffix: nat, newId: UserId,
                                           readFails: bool, saveFails: bool)
    requires suffix < 1000
    ensures var (out, after) := Callback(accounts, profile, suffix, newId, readFails, saveFails);
      && (out.Errored? ==> after == accounts)
      && (out.Done? ==> out.user.googleId == Some(profile.id) && out.user in after)
  {
    var (out, after) := Callback(accounts, profile, suffix, newId, readFails, saveFails);
    if !readFails {
      match FindFirst(accounts, ByGoogleId(profile.id))
      case Some(k) =>
        assert Matches(accounts[k], ByGoogleId(profile.id));
      case None =>
        if profile.emails != [] {
          match FindFirst(accounts, ByEmail(profile.emails[0]))
          case Some(k) =>
            if !saveFails {
              assert after[k] == out.user;
            }
          case None =>
            if out.Done? {
              assert after[|accounts|] == out.user;
            }
        }
    }
  }

  /** The Google-id lookup comes first: an account already linked to the
      profile is returned as stored and nothing is written, whatever its email. */
  lemma GoogleIdFirst(accounts: seq<Account>, profile: Profile, suffix: nat, newId: UserId,
                      saveFails: bool, k: nat)
    requires suffix < 1000
    requires k < |accounts| && accounts[k].googleId == Some(profile.id)
    ensures var (out, after) := Callback(accounts, profile, suffix, newId, false, saveFails);
      after == accounts && out.Done? && out.user.googleId == Some(profile.id)
  {
    assert Matches(accounts[k], ByGoogleId(profile.id));
  }

  /** A profile whose email no account has, and no account is linked to,
      creates exactly one account: a user-role account with that email, that
      Google id, no password and the generated username. */
  lemma NewProfileCreatesOneUser(accounts: seq<Account>, profile: Profile, suffix: nat, newId: UserId)
    requires suffix < 1000
    requires profile.emails != [] && profile.photos != []
    requires forall i :: 0 <= i < |accounts| ==> accounts[i].googleId != Some(profile.id) && accounts[i].email != profile.emails[0]
    ensures var (out, after) := Callback(accounts, profile, suffix, newId, false, false);
      && |after| == |accounts| + 1 && after[..|accounts|] == accounts
      && out == Done(after[|accounts|])
      && out.user.id == newId && out.user.role == UserRole && out.user.password.None?
      && out.user.email == profile.emails[0] && out.user.googleId == Some(profile.id)
      && out.user.username == GeneratedUsername(profile.displayName, suffix)
  {
    assert FindFirst(accounts, ByGoogleId(profile.id)).None?;
    assert FindFirst(accounts, ByEmail(profile.emails[0])).None?;
    var (out, after) := Callback(accounts, profile, suffix, newId, false, false);
    assert after[..|accounts|] == accounts;
  }

  /** A profile no account is linked to, whose first email is on account `k`
      (and on no earlier one), is linked to that account: the account gets the
      Google id (and the profile's first photo, when it has one) and is handed
      to `done`; when the save fails, the store is as it was and the callback
      errors. */
  lemma LinkByEmail(accounts: seq<Account>, profile: Profile, suffix: nat, newId: UserId,
                    saveFails: bool, k: nat)
    requires suffix < 1000
    requires forall i :: 0 <= i < |accounts| ==> accounts[i].googleId != Some(profile.id)
    requires profile.emails != [] && k < |accounts| && accounts[k].email == profile.emails[0]
    requires forall i :: 0 <= i < k ==> accounts[i].email != profile.emails[0]
    ensures var (out, after) := Callback(accounts, profile, suffix, newId, false, saveFails);
      var linked := Linked(accounts[k], profile);
      && (saveFails ==> out.Errored? && after == accounts)
      && (!saveFails ==> out == Done(linked) && after == accounts[k := linked])
  {
    assert FindFirst(accounts, ByGoogleId(profile.id)).None?;
    assert Matches(accounts[k], ByEmail(profile.emails[0]));
    assert FindFirst(accounts, ByEmail(profile.emails[0])) == Some(k);
  }

  /** A profile no account is linked to and no account has the email of
      creates nothing without an email or a photo: the callback errors and the
      store is as it was. */
  lemma NoEmailOrPhotoNoAccount(accounts: seq<Account>, profile: Profile, suffix: nat, newId: UserId,
                                saveFails: bool)
    requires suffix < 1000
    requires forall i :: 0 <= i < |accounts| ==> accounts[i].googleId != Some(profile.id)
    requires profile.emails == [] || profile.photos == []
    requires profile.emails != [] ==> forall i :: 0 <= i < |accounts| ==> accounts[i].email != profile.emails[0]
    ensures Callback(accounts, profile, suffix, newId, false, saveFails) == (Errored, accounts)
  {
    assert FindFirst(accounts, ByGoogleId(profile.id)).None?;
    if profile.emails != [] {
      assert FindFirst(accounts, ByEmail(profile.emails[0])).None?;
    }
  }

  /** A failed read errors and writes nothing; a failed save writes nothing,
      and the only user it can still hand to `done` is an account already
      linked to the profile. */
  lemma {:induction false} FailuresWriteNothing(accounts: seq<Account>, profile: Profile, suffix: nat, newId: UserId,
                                                readFails: bool, saveFails: bool)
    requires suffix < 1000
    ensures readFails ==> Callback(accounts, profile, suffix, newId, readFails, saveFails) == (Errored, accounts)
    ensures saveFails ==>
      var (out, after) := Callback(accounts, profile, suffix, newId, readFails, saveFails);
      && after == accounts
      && (out.Done? ==> exists k :: 0 <= k < |accounts| && accounts[k].googleId == Some(profile.id) && out.user == accounts[k])
  {
    if !readFails && saveFails {
      match FindFirst(accounts, ByGoogleId(profile.id))
      case Some(k) =>
        assert Matches(accounts[k], ByGoogleId(profile.id));
      case None =>
    }
  }

  /** The callback keeps ids and emails distinct, given a fresh id for a new
      account. */
  lemma CallbackKeepsDistinct(accounts: seq<Account>, profile: Profile, suffix: nat, newId: UserId,
                              readFails: bool, saveFails: bool)
    requires suffix < 1000 && Distinct(accounts)
    requires forall i :: 0 <= i < |accounts| ==> accounts[i].id != newId
    ensures Distinct(Callback(accounts, profile, suffix, newId, readFails, saveFails).1)
  {
    if !readFails && FindFirst(accounts, ByGoogleId(profile.id)).None? && profile.emails != [] {
      match FindFirst(accounts, ByEmail(profile.emails[0]))
      case Some(k) =>
        RelinkKeepsDistinct(accounts, k, Linked(accounts[k], profile));
      case None =>
        if profile.photos != [] && !saveFails {
          var created := Account(newId, GeneratedUsername(profile.displayName, suffix), profile.emails[0],
                                 None, UserRole, Some(profile.id), Some(profile.photos[0]));
          assert forall i :: 0 <= i < |accounts| ==> !Matches(accounts[i], ByEmail(profile.emails[0]));
          AppendKeepsDistinct(accounts, created);
        }
    }
  }

  /** The verify callback, step by step over the store. */
  method VerifyProfile(store: UserStore, profile: Profile, suffix: nat, newId: UserId,
                       readFails: bool, saveFails: bool)
    returns (out: Outcome)
    requires store.Valid()
    requires suffix < 1000
    requires forall i :: 0 <= i < |store.accounts| ==> store.accounts[i].id != newId
    modifies store
    ensures (out, store.accounts) == Callback(old(store.accounts), profile, suffix, newId, readFails, saveFails)
    ensures store.Valid()
  {
    CallbackKeepsDistinct(store.accounts, profile, suffix, newId, readFails, saveFails);
    if readFails {
      return Errored;
    }
    var found := FindFirst(store.accounts, ByGoogleId(profile.id));
    if found.Some? {
      return Done(store.accounts[found.value]);
    }
    if profile.emails == [] {
      return Errored;
    }
    var email := profile.emails[0];
    var existing := FindFirst(store.accounts, ByEmail(email));
    if existing.Some? {
      var k := existing.value;
      var user := store.accounts[k];
      user := user.(googleId := Some(profile.id));
      if profile.photos != [] {
        user := user.(picture := Some(profile.photos[0]));
      }
      if saveFails {
        return Errored;
      }
      store.accounts := store.accounts[k := user];
      return Done(user);
    }
    if profile.photos == [] || saveFails {
      return Errored;
    }
    var created := Account(newId, GeneratedUsername(profile.displayName, suffix), email,
                           None, UserRole, Some(profile.id), Some(profile.photos[0]));
    store.accounts := store.accounts + [created];
    out := Done(created);
  }

  /** `serializeUser`: the session keeps the account's id. */
  function SerializeUser(a: Account): UserId {
    a.id
  }

  /** What the session keeps finds the same account again. */
  lemma SerializedIdFindsAccount(store: UserStore, k: nat)
    requires store.Valid() && k < |store.accounts|
    ensures store.Find(SerializeUser(store.accounts[k])) == Some(store.accounts[k])
  {
    FindByIdIsUnique(store.accounts, k);
  }
}
