/** The account logic of the users app: e-mail code verification, the
    password format and its digest, sign-up with the team table, login with
    its five-strike lockout, password reset and change, and account
    deletion.

    SHA-256 is kept symbolic: the stored digest of a password is the value
    `Sha256(password)`, so two passwords have equal digests exactly when
    they are equal. The user id is kept symbolic the same way: the name-based
    UUID of an e-mail address is `Uuid5(email)`. Sign-up stores an account
    under that id, but the e-mail column itself is not unique, so login and
    reset look the account up by its e-mail column. The login cache is two
    entries per e-mail address: the lock and the failure counter. */
module Auth {
  import opened Wrappers
  import opened Text
  import opened CommonCodes

  // ---------------------------------------------------------------------
  // Values
  // ---------------------------------------------------------------------

  /** `hashlib.sha256(s.encode('utf-8')).hexdigest()`. */
  datatype Digest = Sha256(input: string)

  /** `str(uuid.uuid5(uuid.NAMESPACE_DNS, email))`. */
  datatype UserId = Uuid5(email: string)

  /** A `USER_INFO` row: e-mail, stored digest, favourite team code,
      storage usage and the free-use flag. */
  datatype User = User(email: string, password: Digest, team: Option<int>, storageUsage: int, freeUse: bool)

  /** Every error the account logic raises, one per message. */
  datatype AuthError =
    | Expired              // verification: "인증 시간이 만료되었습니다."
    | CodeMismatch         // verification: "인증번호가 일치하지 않습니다."
    | BadFormat            // password format
    | UnknownTeam          // sign-up: team string not in the table
    | MissingTeamCode      // sign-up: no common-code row with that key
    | Locked               // login: "LOCKED"
    | UnknownEmail         // login: no user with that e-mail
    | DuplicateEmail       // login / reset: `MultipleObjectsReturned` escapes
    | LockedNow            // login: "LOCKED_5"
    | LoginFailed          // login: "FAIL"
    | UserNotFound         // reset: "사용자를 찾을 수 없습니다."
    | ReusedPassword       // reset: "기존에 사용하던 비밀번호입니다."
    | ConfirmMismatch      // change: new and confirmation differ
    | NoSuchUser           // change / delete: `UserInfo.DoesNotExist` escapes
    | WrongCurrentPassword // change: current password does not match
    | SameAsCurrent        // change: new password equals the current one
    | WrongPassword        // delete: password does not match

  /** The login cache: locked e-mail addresses and failure counters. */
  datatype Cache = Cache(locked: set<string>, fails: map<string, int>)

  /** The accounts table together with the login cache. */
  datatype Store = Store(users: map<UserId, User>, cache: Cache)

  /** What an operation answers and the state it leaves. */
  datatype Outcome<T> = Outcome(result: Result<T, AuthError>, store: Store)

  /** What `UserInfo.objects.get(email=...)` finds: no row, the one row
      with that address, or several rows (`MultipleObjectsReturned`). */
  datatype Lookup = NoRow | OneRow(id: UserId) | SeveralRows

  /** The ids of the accounts whose e-mail is `email`. */
  function WithEmail(users: map<UserId, User>, email: string): (ids: set<UserId>)
    ensures forall id :: id in ids <==> id in users && users[id].email == email
  {
    set id | id in users && users[id].email == email
  }

  /** A set of one element has no two different members. */
  lemma SingletonMembers<T>(s: set<T>)
    requires |s| == 1
    ensures forall a, b :: a in s && b in s ==> a == b
  {
    forall a, b | a in s && b in s
      ensures a == b
    {
      assert |s - {a}| == 0;
    }
  }

  /** `UserInfo.objects.get(email=email)`: the e-mail column is not unique,
      so the query may find nothing, exactly one account, or several. */
  function GetByEmail(users: map<UserId, User>, email: string): (r: Lookup)
    ensures r.NoRow? <==> WithEmail(users, email) == {}
    ensures r.SeveralRows? <==> |WithEmail(users, email)| > 1
    ensures r.OneRow? ==> WithEmail(users, email) == {r.id} && r.id in users && users[r.id].email == email
  {
    var ids := WithEmail(users, email);
    if ids == {} then NoRow
    else if |ids| > 1 then SeveralRows
    else
      SingletonMembers(ids);
      var id :| id in ids;
      OneRow(id)
  }

  /** Every account sits under the id derived from its e-mail, as sign-up
      stores it. */
  predicate IdsFromEmails(users: map<UserId, User>) {
    forall id :: id in users ==> id == Uuid5(users[id].email)
  }

  /** Under `IdsFromEmails`, the query by e-mail finds exactly the account
      stored under the id of that e-mail, and never several. */
  lemma EmailLookup(users: map<UserId, User>, email: string)
    requires IdsFromEmails(users)
    ensures GetByEmail(users, email) == if Uuid5(email) in users then OneRow(Uuid5(email)) else NoRow
  {
    if Uuid5(email) in users {
      assert WithEmail(users, email) == {Uuid5(email)};
    } else {
      assert WithEmail(users, email) == {};
    }
  }

  /** Changing a stored digest leaves every query by e-mail as it was. */
  lemma PasswordChangeKeepsLookup(users: map<UserId, User>, id: UserId, d: Digest, email: string)
    requires id in users
    ensures GetByEmail(users[id := users[id].(password := d)], email) == GetByEmail(users, email)
  {
    assert WithEmail(users[id := users[id].(password := d)], email) == WithEmail(users, email);
  }

  /** The query goes by the e-mail column, not by the id: an account whose
      id was derived from another address is still found by its own, and
      two accounts with one address make the query fail. */
  lemma LookupFollowsEmailColumn(d: Digest)
    ensures GetByEmail(map[Uuid5("b@x") := User("a@x", d, None, 0, false)], "a@x") == OneRow(Uuid5("b@x"))
    ensures GetByEmail(map[Uuid5("b@x") := User("a@x", d, None, 0, false)], "b@x") == NoRow
    ensures GetByEmail(map[Uuid5("a@x") := User("a@x", d, None, 0, false),
                           Uuid5("b@x") := User("a@x", d, None, 0, false)], "a@x") == SeveralRows
  {
    var one := map[Uuid5("b@x") := User("a@x", d, None, 0, false)];
    assert WithEmail(one, "a@x") == {Uuid5("b@x")};
    assert WithEmail(one, "b@x") == {} by {
      assert one[Uuid5("b@x")].email != "b@x" by { assert "a@x"[0] != "b@x"[0]; }
    }
    var two := map[Uuid5("a@x") := User("a@x", d, None, 0, false),
                   Uuid5("b@x") := User("a@x", d, None, 0, false)];
    assert Uuid5("a@x") != Uuid5("b@x") by { assert "a@x"[0] != "b@x"[0]; }
    assert {Uuid5("a@x"), Uuid5("b@x")} <= WithEmail(two, "a@x");
    assert WithEmail(two, "a@x") == {Uuid5("a@x"), Uuid5("b@x")};
  }

  // ---------------------------------------------------------------------
  // verify_code_logic
  // ---------------------------------------------------------------------

  /** The session's code must be present and non-empty, and then equal the
      input. */
  function VerifyCode(input: string, session: Option<string>): (r: Result<bool, AuthError>)
    ensures r == Err(Expired) <==> session.None? || session.value == ""
    ensures r == Err(CodeMismatch) <==> session.Some? && session.value != "" && input != session.value
    ensures r.Ok? <==> session.Some? && session.value != "" && input == session.value
    ensures r.Ok? ==> r.value
  {
    if session.None? || session.value == "" then Err(Expired)
    else if input != session.value then Err(CodeMismatch)
    else Ok(true)
  }

  // ---------------------------------------------------------------------
  // validate_password_logic
  // ---------------------------------------------------------------------

  predicate HasLower(s: string) {
    exists i :: 0 <= i < |s| && 'a' <= s[i] <= 'z'
  }

  predicate HasDigit(s: string) {
    exists i :: 0 <= i < |s| && IsDigit(s[i])
  }

  predicate NewlineFree(s: string) {
    forall i :: 0 <= i < |s| ==> s[i] != '\n'
  }

  /** The intended password format: 10 to 16 characters, none a line
      break, at least one ASCII lower-case letter and at least one digit. */
  predicate ValidPasswordFormat(s: string) {
    NewlineFree(s) && 10 <= |s| <= 16 && HasLower(s) && HasDigit(s)
  }

  /** What `re.match(r'^(?=.*[a-z])(?=.*\d).{10,16}$', s)` accepts. `.`
      matches anything but a line break, and `$` matches at the end of the
      string or just before a line break that ends it: so the string is a
      well-formed password, or a well-formed password followed by one line
      break. */
  predicate PasswordRegexMatches(s: string) {
    ValidPasswordFormat(s) || (|s| > 0 && s[|s| - 1] == '\n' && ValidPasswordFormat(s[..|s| - 1]))
  }

  /** `validate_password_logic` as written: the regex, then the digest. */
  function ValidatePasswordAsWritten(password: string): (r: Result<Digest, AuthError>)
    ensures r.Ok? <==> PasswordRegexMatches(password)
    ensures r.Ok? ==> r.value.input == password
    ensures r.Err? ==> r.error == BadFormat
  {
    if PasswordRegexMatches(password) then Ok(Sha256(password)) else Err(BadFormat)
  }

  /** `validate_password_logic` with the format checked over the whole
      string; the rest of the model uses this one. */
  function ValidatePassword(password: string): (r: Result<Digest, AuthError>)
    ensures r.Ok? <==> NewlineFree(password) && 10 <= |password| <= 16 && HasLower(password) && HasDigit(password)
    ensures r.Ok? ==> r.value.input == password
    ensures r.Err? ==> r.error == BadFormat
  {
    if ValidPasswordFormat(password) then Ok(Sha256(password)) else Err(BadFormat)
  }

  /** On passwords without line breaks the regex is exactly the intended
      format. */
  lemma RegexAgreesWithoutNewlines(s: string)
    requires NewlineFree(s)
    ensures ValidatePasswordAsWritten(s) == ValidatePassword(s)
  {
    if |s| > 0 {
      assert s[|s| - 1] != '\n';
    }
  }

  /** The regex lets a trailing line break through: "abcdefgh12\n" has
      eleven characters, one of them a line break, and is accepted and
      hashed with the line break. */
  lemma RegexAcceptsTrailingNewline()
    ensures ValidatePasswordAsWritten("abcdefgh12\n") == Ok(Sha256("abcdefgh12\n"))
    ensures ValidatePassword("abcdefgh12\n") == Err(BadFormat)
  {
    var s := "abcdefgh12\n";
    assert s[..|s| - 1] == "abcdefgh12";
    assert 'a' <= s[0] <= 'z' && IsDigit(s[8]);
    assert !NewlineFree(s) by { assert s[10] == '\n'; }
  }

  /** Every accepted password yields a different digest. */
  lemma DigestsSeparatePasswords(p: string, q: string)
    requires ValidatePassword(p).Ok? && ValidatePassword(q).Ok?
    ensures ValidatePassword(p) == ValidatePassword(q) <==> p == q
  {
  }

  // ---------------------------------------------------------------------
  // create_user_logic: the team table
  // ---------------------------------------------------------------------

  const TeamMapping: map<string, int> := map[
    "LG" := 1, "HANHWA" := 2, "SSG" := 3, "SAMSUNG" := 4, "NC" := 5,
    "KT" := 6, "LOTTE" := 7, "KIA" := 8, "DOOSAN" := 9, "KIWOOM" := 10]

  /** `team_mapping.get(team_str)`; a miss is the "잘못된 구단 정보" error. */
  function TeamCode(team: string): (r: Result<int, AuthError>)
    ensures r.Ok? <==> team in TeamMapping
    ensures r.Ok? ==> 1 <= r.value <= 10 && r.value == TeamMapping[team]
    ensures r.Err? ==> r.error == UnknownTeam
  {
    if team in TeamMapping then Ok(TeamMapping[team]) else Err(UnknownTeam)
  }

  /** The team whose code is `code`, reading the table backwards. */
  function TeamName(code: int): string {
    match code
    case 1 => "LG" case 2 => "HANHWA" case 3 => "SSG" case 4 => "SAMSUNG" case 5 => "NC"
    case 6 => "KT" case 7 => "LOTTE" case 8 => "KIA" case 9 => "DOOSAN" case 10 => "KIWOOM"
    case _ => ""
  }

  /** The table gives each of the ten teams its own code, and spells the
      Hanwha key "HANHWA": the "HANWHA" spelling of the team metadata is
      refused. */
  lemma TeamTable()
    ensures forall t :: t in TeamMapping ==> TeamName(TeamMapping[t]) == t
    ensures forall a, b :: a in TeamMapping && b in TeamMapping && a != b ==> TeamMapping[a] != TeamMapping[b]
    ensures TeamCode("HANHWA") == Ok(2)
    ensures TeamCode("HANWHA") == Err(UnknownTeam)
  {
    forall t | t in TeamMapping
      ensures TeamName(TeamMapping[t]) == t
    {
    }
  }

  /** Sign-up: team string, then the common-code row, then the user row
      written under the id derived from the e-mail. Saving with that
      primary key overwrites an existing row with the same e-mail. */
  function CreateUserOutcome(st: Store, codes: CodeTable, email: string, hashed: Digest, team: string): (o: Outcome<()>)
    ensures o.result.Ok? <==> team in TeamMapping && TeamMapping[team] in codes
    ensures team !in TeamMapping ==> o.result == Err(UnknownTeam)
    ensures team in TeamMapping && TeamMapping[team] !in codes ==> o.result == Err(MissingTeamCode)
    ensures o.result.Err? ==> o.store == st
    ensures o.result.Ok? ==>
              o.store.cache == st.cache
              && o.store.users == st.users[Uuid5(email) := User(email, hashed, Some(TeamMapping[team]), 0, false)]
  {
    match TeamCode(team)
    case Err(e) => Outcome(Err(e), st)
    case Ok(code) =>
      if code !in codes then Outcome(Err(MissingTeamCode), st)
      else Outcome(Ok(()), st.(users := st.users[Uuid5(email) := User(email, hashed, Some(code), 0, false)]))
  }

  /** Sign-up keeps every account under the id of its e-mail, and the new
      account is the only one with that e-mail. */
  lemma CreateUserKeepsIds(st: Store, codes: CodeTable, email: string, hashed: Digest, team: string)
    requires IdsFromEmails(st.users)
    ensures var o := CreateUserOutcome(st, codes, email, hashed, team);
            && IdsFromEmails(o.store.users)
            && (o.result.Ok? ==> forall id :: id in o.store.users && o.store.users[id].email == email ==> id == Uuid5(email))
  {
  }

  // ---------------------------------------------------------------------
  // login_user_logic
  // ---------------------------------------------------------------------

  const MaxFailures: int := 5

  /** The failure counter of an address, 0 when absent. */
  function Failures(c: Cache, email: string): int {
    if email in c.fails then c.fails[email] else 0
  }

  /** The cache invariant: every stored counter is between 1 and 4. */
  predicate CacheValid(c: Cache) {
    forall e :: e in c.fails ==> 1 <= c.fails[e] < MaxFailures
  }

  /** The account `id` is the one the query by `email` finds, and its stored
      digest is that of `password`. */
  predicate Matches(users: map<UserId, User>, email: string, id: UserId, password: string) {
    GetByEmail(users, email) == OneRow(id) && users[id].password == Sha256(password)
  }

  /** Lock check, user lookup, digest comparison; a success deletes the
      counter, a failure bumps it, and the fifth failure sets the lock and
      deletes the counter. */
  function LoginOutcome(st: Store, email: string, password: string): (o: Outcome<UserId>)
    ensures o.store.users == st.users
    ensures email in st.cache.locked ==> o == Outcome(Err(Locked), st)
    ensures email !in st.cache.locked && GetByEmail(st.users, email).NoRow? ==> o == Outcome(Err(UnknownEmail), st)
    ensures email !in st.cache.locked && GetByEmail(st.users, email).SeveralRows? ==> o == Outcome(Err(DuplicateEmail), st)
    ensures o.result.Ok? <==>
              email !in st.cache.locked && GetByEmail(st.users, email).OneRow?
              && Matches(st.users, email, GetByEmail(st.users, email).id, password)
    ensures o.result.Ok? ==>
              Matches(st.users, email, o.result.value, password) && WithEmail(st.users, email) == {o.result.value}
              && email !in o.store.cache.fails
    ensures o.result == Err(LockedNow) <==>
              email !in st.cache.locked && GetByEmail(st.users, email).OneRow?
              && !Matches(st.users, email, GetByEmail(st.users, email).id, password)
              && Failures(st.cache, email) + 1 >= MaxFailures
    ensures o.result == Err(LockedNow) ==> email in o.store.cache.locked && email !in o.store.cache.fails
    ensures o.result == Err(LoginFailed) <==>
              email !in st.cache.locked && GetByEmail(st.users, email).OneRow?
              && !Matches(st.users, email, GetByEmail(st.users, email).id, password)
              && Failures(st.cache, email) + 1 < MaxFailures
    ensures o.result == Err(LoginFailed) ==> Failures(o.store.cache, email) == Failures(st.cache, email) + 1
    ensures email in o.store.cache.locked <==> email in st.cache.locked || o.result == Err(LockedNow)
    ensures forall e :: e != email ==> (e in o.store.cache.locked <==> e in st.cache.locked)
    ensures forall e :: e != email ==> Failures(o.store.cache, e) == Failures(st.cache, e)
  {
    var c := st.cache;
    if email in c.locked then Outcome(Err(Locked), st)
    else match GetByEmail(st.users, email)
    case NoRow => Outcome(Err(UnknownEmail), st)
    case SeveralRows => Outcome(Err(DuplicateEmail), st)
    case OneRow(id) =>
    if st.users[id].password == Sha256(password) then
      Outcome(Ok(id), st.(cache := c.(fails := c.fails - {email})))
    else
      var current := Failures(c, email) + 1;
      if current >= MaxFailures then
        Outcome(Err(LockedNow), st.(cache := Cache(c.locked + {email}, c.fails - {email})))
      else
        Outcome(Err(LoginFailed), st.(cache := c.(fails := c.fails[email := current])))
  }

  /** The counter stays between 1 and 4 whenever it is present. */
  lemma LoginKeepsCacheValid(st: Store, email: string, password: string)
    requires CacheValid(st.cache)
    ensures CacheValid(LoginOutcome(st, email, password).store.cache)
  {
  }

  /** A run of login attempts for one address, with the answers given. */
  function Attempts(st: Store, email: string, passwords: seq<string>): (r: (seq<Result<UserId, AuthError>>, Store))
    ensures |r.0| == |passwords|
    ensures r.1.users == st.users
    ensures forall e :: e != email ==> (e in r.1.cache.locked <==> e in st.cache.locked)
    ensures forall e :: e != email ==> Failures(r.1.cache, e) == Failures(st.cache, e)
    decreases |passwords|
  {
    if passwords == [] then ([], st)
    else
      var o := LoginOutcome(st, email, passwords[0]);
      var rest := Attempts(o.store, email, passwords[1..]);
      ([o.result] + rest.0, rest.1)
  }

  /** Five wrong passwords in a row from a clean start: four "FAIL"s, then
      "LOCKED_5" with the address locked. */
  lemma FiveFailuresLock(st: Store, email: string, id: UserId, passwords: seq<string>)
    requires email !in st.cache.locked && email !in st.cache.fails && GetByEmail(st.users, email) == OneRow(id)
    requires |passwords| == 5
    requires forall i :: 0 <= i < 5 ==> st.users[id].password != Sha256(passwords[i])
    ensures Attempts(st, email, passwords).0
            == [Err(LoginFailed), Err(LoginFailed), Err(LoginFailed), Err(LoginFailed), Err(LockedNow)]
    ensures email in Attempts(st, email, passwords).1.cache.locked
  {
    var p1 := passwords[1..];
    var p2 := p1[1..];
    var p3 := p2[1..];
    var p4 := p3[1..];
    assert p4[1..] == [];
    var s1 := LoginOutcome(st, email, passwords[0]).store;
    var s2 := LoginOutcome(s1, email, p1[0]).store;
    var s3 := LoginOutcome(s2, email, p2[0]).store;
    var s4 := LoginOutcome(s3, email, p3[0]).store;
    assert Failures(s4.cache, email) == 4;
    assert p4[0] == passwords[4];
    assert LoginOutcome(s4, email, p4[0]).result == Err(LockedNow);
    var s5 := LoginOutcome(s4, email, p4[0]).store;
    assert Attempts(s5, email, p4[1..]) == ([], s5);
    var a4 := Attempts(s4, email, p4);
    assert a4.0 == [Err(LockedNow)];
    assert a4.1 == s5;
    var a3 := Attempts(s3, email, p3);
    assert a3 == ([Err(LoginFailed)] + a4.0, a4.1);
    var a2 := Attempts(s2, email, p2);
    assert a2 == ([Err(LoginFailed)] + a3.0, a3.1);
    var a1 := Attempts(s1, email, p1);
    assert a1 == ([Err(LoginFailed)] + a2.0, a2.1);
  }

  /** While locked, every attempt is refused and nothing changes, even with
      the right password. */
  lemma {:induction false} LockedStaysLocked(st: Store, email: string, passwords: seq<string>)
    requires email in st.cache.locked
    ensures Attempts(st, email, passwords).1 == st
    ensures forall i :: 0 <= i < |passwords| ==> Attempts(st, email, passwords).0[i] == Err(Locked)
    decreases |passwords|
  {
    if passwords != [] {
      LockedStaysLocked(st, email, passwords[1..]);
    }
  }

  /** The right password clears the counter, so the next wrong one starts
      again from one. */
  lemma SuccessResetsCounter(st: Store, email: string, id: UserId, good: string, bad: string)
    requires email !in st.cache.locked && GetByEmail(st.users, email) == OneRow(id)
    requires st.users[id].password == Sha256(good) != Sha256(bad)
    ensures var s1 := LoginOutcome(st, email, good).store;
            LoginOutcome(s1, email, bad).result == Err(LoginFailed)
            && Failures(LoginOutcome(s1, email, bad).store.cache, email) == 1
  {
  }

  // ---------------------------------------------------------------------
  // reset_password_logic, update_password_logic, delete_account_logic
  // ---------------------------------------------------------------------

  /** Format, then lookup by e-mail, then the same-as-stored check; only
      when all pass does the stored digest change. */
  function ResetOutcome(st: Store, email: string, newPassword: string): (o: Outcome<()>)
    ensures o.store.cache == st.cache
    ensures !ValidPasswordFormat(newPassword) ==> o.result == Err(BadFormat)
    ensures ValidPasswordFormat(newPassword) && GetByEmail(st.users, email).NoRow? ==> o.result == Err(UserNotFound)
    ensures ValidPasswordFormat(newPassword) && GetByEmail(st.users, email).SeveralRows? ==> o.result == Err(DuplicateEmail)
    ensures o.result == Err(ReusedPassword) <==>
              ValidPasswordFormat(newPassword) && GetByEmail(st.users, email).OneRow?
              && Matches(st.users, email, GetByEmail(st.users, email).id, newPassword)
    ensures o.result.Ok? <==>
              ValidPasswordFormat(newPassword) && GetByEmail(st.users, email).OneRow?
              && !Matches(st.users, email, GetByEmail(st.users, email).id, newPassword)
    ensures o.result.Err? ==> o.store == st
    ensures o.result.Ok? ==>
              GetByEmail(st.users, email).OneRow?
              && var id := GetByEmail(st.users, email).id;
                 o.store.users == st.users[id := st.users[id].(password := Sha256(newPassword))]
                 && st.users[id].password != o.store.users[id].password
  {
    match ValidatePassword(newPassword)
    case Err(e) => Outcome(Err(e), st)
    case Ok(hashed) =>
      match GetByEmail(st.users, email)
      case NoRow => Outcome(Err(UserNotFound), st)
      case SeveralRows => Outcome(Err(DuplicateEmail), st)
      case OneRow(id) =>
        if st.users[id].password == hashed then Outcome(Err(ReusedPassword), st)
        else Outcome(Ok(()), st.(users := st.users[id := st.users[id].(password := hashed)]))
  }

  /** Confirmation, format, user, current password, same-as-current, in
      that order; only when all pass does the stored digest change. */
  function UpdateOutcome(st: Store, userId: UserId, current: string, newPassword: string, confirm: string): (o: Outcome<()>)
    ensures o.store.cache == st.cache
    ensures newPassword != confirm ==> o.result == Err(ConfirmMismatch)
    ensures newPassword == confirm && !ValidPasswordFormat(newPassword) ==> o.result == Err(BadFormat)
    ensures newPassword == confirm && ValidPasswordFormat(newPassword) && userId !in st.users ==> o.result == Err(NoSuchUser)
    ensures o.result == Err(WrongCurrentPassword) <==>
              newPassword == confirm && ValidPasswordFormat(newPassword) && userId in st.users
              && st.users[userId].password != Sha256(current)
    ensures o.result == Err(SameAsCurrent) <==>
              newPassword == confirm && ValidPasswordFormat(newPassword) && userId in st.users
              && st.users[userId].password == Sha256(current) && current == newPassword
    ensures o.result.Ok? <==>
              newPassword == confirm && ValidPasswordFormat(newPassword) && userId in st.users
              && st.users[userId].password == Sha256(current) && current != newPassword
    ensures o.result.Err? ==> o.store == st
    ensures o.result.Ok? ==>
              userId in st.users && st.users[userId].password == Sha256(current) && current != newPassword
              && o.store.users == st.users[userId := st.users[userId].(password := Sha256(newPassword))]
  {
    if newPassword != confirm then Outcome(Err(ConfirmMismatch), st)
    else match ValidatePassword(newPassword)
      case Err(e) => Outcome(Err(e), st)
      case Ok(hashedNew) =>
        if userId !in st.users then Outcome(Err(NoSuchUser), st)
        else
          var user := st.users[userId];
          if user.password != Sha256(current) then Outcome(Err(WrongCurrentPassword), st)
          else if user.password == hashedNew then Outcome(Err(SameAsCurrent), st)
          else Outcome(Ok(()), st.(users := st.users[userId := user.(password := hashedNew)]))
  }

  /** Deletes the account only when the password matches. */
  function DeleteOutcome(st: Store, userId: UserId, password: string): (o: Outcome<()>)
    ensures o.store.cache == st.cache
    ensures userId !in st.users ==> o.result == Err(NoSuchUser)
    ensures o.result == Err(WrongPassword) <==> userId in st.users && st.users[userId].password != Sha256(password)
    ensures o.result.Err? ==> o.store == st
    ensures o.result.Ok? <==> userId in st.users && st.users[userId].password == Sha256(password)
    ensures o.result.Ok? ==> userId in st.users && o.store.users == st.users - {userId}
  {
    if userId !in st.users then Outcome(Err(NoSuchUser), st)
    else if st.users[userId].password != Sha256(password) then Outcome(Err(WrongPassword), st)
    else Outcome(Ok(()), st.(users := st.users - {userId}))
  }

  /** After a successful change, the new password logs in and the old one
      no longer does. */
  lemma UpdateThenLogin(st: Store, email: string, id: UserId, current: string, newPassword: string)
    requires email !in st.cache.locked && GetByEmail(st.users, email) == OneRow(id)
    requires UpdateOutcome(st, id, current, newPassword, newPassword).result.Ok?
    ensures var s1 := UpdateOutcome(st, id, current, newPassword, newPassword).store;
            LoginOutcome(s1, email, newPassword).result == Ok(id)
            && LoginOutcome(s1, email, current).result.Err?
  {
    PasswordChangeKeepsLookup(st.users, id, Sha256(newPassword), email);
  }

  /** After a reset, resetting again to the same password is refused. */
  lemma ResetTwiceIsRefused(st: Store, email: string, newPassword: string)
    requires ResetOutcome(st, email, newPassword).result.Ok?
    ensures ResetOutcome(ResetOutcome(st, email, newPassword).store, email, newPassword).result == Err(ReusedPassword)
  {
    PasswordChangeKeepsLookup(st.users, GetByEmail(st.users, email).id, Sha256(newPassword), email);
  }

  /** Deleting the one account with an address leaves no account with it:
      logging in with that address fails whatever the password. */
  lemma DeletedCannotLogIn(st: Store, email: string, id: UserId, password: string, later: string)
    requires GetByEmail(st.users, email) == OneRow(id)
    requires DeleteOutcome(st, id, password).result.Ok?
    ensures var s1 := DeleteOutcome(st, id, password).store;
            LoginOutcome(s1, email, later).result.Err? && LoginOutcome(s1, email, later).result.error in {Locked, UnknownEmail}
  {
    assert WithEmail(st.users - {id}, email) == {};
  }

  // ---------------------------------------------------------------------
  // The service over the live tables
  // ---------------------------------------------------------------------

  /** The accounts table, the common-code table and the login cache, changed
      in place by the account operations. */
  class AccountService {
    const codes: CodeTable
    var users: map<UserId, User>
    var locked: set<string>
    var fails: map<string, int>

    function State(): Store
      reads this
    {
      Store(users, Cache(locked, fails))
    }

    constructor (codes: CodeTable, users: map<UserId, User>)
      ensures this.codes == codes && State() == Store(users, Cache({}, map[]))
    {
      this.codes := codes;
      this.users := users;
      locked := {};
      fails := map[];
    }

    /** `create_user_logic`. */
    method CreateUser(email: string, hashed: Digest, team: string) returns (r: Result<(), AuthError>)
      modifies this
      ensures Outcome(r, State()) == CreateUserOutcome(old(State()), codes, email, hashed, team)
    {
      if team !in TeamMapping {
        return Err(UnknownTeam);
      }
      var code := TeamMapping[team];
      if code !in codes {
        return Err(MissingTeamCode);
      }
      users := users[Uuid5(email) := User(email, hashed, Some(code), 0, false)];
      r := Ok(());
    }

    /** `login_user_logic`: the cache is read, bumped, set and cleared
        entry by entry. */
    method Login(email: string, password: string) returns (r: Result<UserId, AuthError>)
      modifies this
      ensures Outcome(r, State()) == LoginOutcome(old(State()), email, password)
    {
      if email in locked {
        return Err(Locked);
      }
      var found := GetByEmail(users, email);
      if found.NoRow? {
        return Err(UnknownEmail);
      } else if found.SeveralRows? {
        return Err(DuplicateEmail);
      }
      var id := found.id;
      var inputHashed := Sha256(password);
      if users[id].password == inputHashed {
        fails := fails - {email};
        return Ok(id);
      }
      var current := (if email in fails then fails[email] else 0) + 1;
      fails := fails[email := current];
      if current >= MaxFailures {
        locked := locked + {email};
        fails := fails - {email};
        return Err(LockedNow);
      }
      r := Err(LoginFailed);
    }

    /** `reset_password_logic`. */
    method ResetPassword(email: string, newPassword: string) returns (r: Result<(), AuthError>)
      modifies this
      ensures Outcome(r, State()) == ResetOutcome(old(State()), email, newPassword)
    {
      var checked := ValidatePassword(newPassword);
      if checked.Err? {
        return Err(checked.error);
      }
      var found := GetByEmail(users, email);
      if found.NoRow? {
        return Err(UserNotFound);
      } else if found.SeveralRows? {
        return Err(DuplicateEmail);
      }
      var id := found.id;
      if users[id].password == checked.value {
        return Err(ReusedPassword);
      }
      users := users[id := users[id].(password := checked.value)];
      r := Ok(());
    }

    /** `update_password_logic`. */
    method UpdatePassword(userId: UserId, current: string, newPassword: string, confirm: string)
      returns (r: Result<(), AuthError>)
      modifies this
      ensures Outcome(r, State()) == UpdateOutcome(old(State()), userId, current, newPassword, confirm)
    {
      if newPassword != confirm {
        return Err(ConfirmMismatch);
      }
      var checked := ValidatePassword(newPassword);
      if checked.Err? {
        return Err(checked.error);
      }
      if userId !in users {
        return Err(NoSuchUser);
      }
      var hashedCurrent := Sha256(current);
      if users[userId].password != hashedCurrent {
        return Err(WrongCurrentPassword);
      }
      if users[userId].password == checked.value {
        return Err(SameAsCurrent);
      }
      users := users[userId := users[userId].(password := checked.value)];
      r := Ok(());
    }

    /** `delete_account_logic`. */
    method DeleteAccount(userId: UserId, password: string) returns (r: Result<(), AuthError>)
      modifies this
      ensures Outcome(r, State()) == DeleteOutcome(old(State()), userId, password)
    {
      if userId !in users {
        return Err(NoSuchUser);
      }
      if users[userId].password != Sha256(password) {
        return Err(WrongPassword);
      }
      users := users - {userId};
      r := Ok(());
    }
  }
}
