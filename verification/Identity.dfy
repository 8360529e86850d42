/** The user and session tables of the sign-in service. A statement that
    violates a constraint fails and changes nothing. */
module Identity {
  import opened Options

  type UserId = string

  datatype ProfileField = Country | FirstName | LastName | City | FavouriteTeam | HighlevelContact | HighlevelSynced

  datatype User = User(
    id: UserId, phone: Option<string>, email: Option<string>, telegramId: Option<int>,
    telegramUsername: Option<string>, displayName: Option<string>,
    createdAt: int, lastSeenAt: int, isBot: bool, profile: map<ProfileField, string>)

  datatype Session = Session(id: string, userId: UserId, jti: string, createdAt: int, expiresAt: int)

  type Users = map<UserId, User>

  datatype Db = Db(users: Users, sessions: map<string, Session>)

  /** The fields of an update: absent, cleared or set. */
  datatype Patch = Patch(email: Option<Option<string>>, displayName: Option<Option<string>>,
                         profile: map<ProfileField, Option<string>>)

  datatype LinkOutcome = NoUser | ConflictStrong | Absorbed | Refreshed | AlreadyLinked | Conflict | Linked

  datatype Answer = Found(user: User) | Nobody | Outcome(link: LinkOutcome) | Stored | Violation

  // ---------- constraints ----------

  /** Both rows hold one phone, email or Telegram id. */
  predicate Clash(a: User, b: User) {
    || (a.phone.Some? && a.phone == b.phone)
    || (a.email.Some? && a.email == b.email)
    || (a.telegramId.Some? && a.telegramId == b.telegramId)
  }

  /** The unique indexes refuse u beside the other rows. */
  predicate Clashes(users: Users, u: User) {
    exists id :: id in users && id != u.id && Clash(users[id], u)
  }

  predicate HasSessions(db: Db, id: UserId) {
    exists s :: s in db.sessions && db.sessions[s].userId == id
  }

  ghost predicate Unique(users: Users) {
    && (forall id :: id in users ==> users[id].id == id)
    && (forall a, b :: a in users && b in users && a != b ==> !Clash(users[a], users[b]))
  }

  ghost predicate Valid(db: Db) {
    && Unique(db.users)
    && (forall s :: s in db.sessions ==> db.sessions[s].id == s && db.sessions[s].userId in db.users)
    && (forall s, t :: s in db.sessions && t in db.sessions && s != t ==> db.sessions[s].jti != db.sessions[t].jti)
  }

  // ---------- look-ups ----------

  predicate OwnsPhone(users: Users, id: UserId, phone: string) {
    id in users && users[id].phone == Some(phone)
  }

  predicate OwnsEmail(users: Users, id: UserId, email: string) {
    id in users && users[id].email == Some(email)
  }

  predicate OwnsTelegram(users: Users, id: UserId, telegramId: int) {
    id in users && users[id].telegramId == Some(telegramId)
  }

  ghost function ByPhone(users: Users, phone: string): (r: Option<UserId>)
    ensures r.Some? ==> OwnsPhone(users, r.value, phone)
    ensures r.None? ==> forall id :: !OwnsPhone(users, id, phone)
  {
    if id :| OwnsPhone(users, id, phone) then Some(id) else None
  }

  ghost function ByEmail(users: Users, email: string): (r: Option<UserId>)
    ensures r.Some? ==> OwnsEmail(users, r.value, email)
    ensures r.None? ==> forall id :: !OwnsEmail(users, id, email)
  {
    if id :| OwnsEmail(users, id, email) then Some(id) else None
  }

  ghost function ByTelegram(users: Users, telegramId: int): (r: Option<UserId>)
    ensures r.Some? ==> OwnsTelegram(users, r.value, telegramId)
    ensures r.None? ==> forall id :: !OwnsTelegram(users, id, telegramId)
  {
    if id :| OwnsTelegram(users, id, telegramId) then Some(id) else None
  }

  // ---------- statements ----------

  function Coalesce<T>(a: Option<T>, b: Option<T>): Option<T> {
    if a.Some? then a else b
  }

  /** Empty text counts as missing in the service's own tests, unlike in the
      unique indexes. */
  predicate Present(text: Option<string>) {
    text.Some? && text.value != ""
  }

  function Row(db: Db, u: User): Db {
    db.(users := db.users[u.id := u])
  }

  /** INSERT: refused for a taken id or a clash. */
  ghost function Insert(db: Db, u: User): (Db, Answer) {
    if u.id in db.users || Clashes(db.users, u) then (db, Violation) else (Row(db, u), Found(u))
  }

  /** UPDATE of one row: refused for a clash with another. */
  ghost function Update(db: Db, u: User, answer: Answer): (Db, Answer) {
    if Clashes(db.users, u) then (db, Violation) else (Row(db, u), answer)
  }

  function NewUser(id: UserId, now: int): User {
    User(id, None, None, None, None, None, now, now, false, map[])
  }

  function Seen(u: User, now: int): User {
    u.(lastSeenAt := now)
  }

  // ---------- operations ----------

  ghost function FoundOrCreated(db: Db, phone: string, newId: UserId, now: int): (Db, Answer) {
    match ByPhone(db.users, phone)
    case Some(id) => (Row(db, Seen(db.users[id], now)), Found(Seen(db.users[id], now)))
    case None => Insert(db, NewUser(newId, now).(phone := Some(phone)))
  }

  ghost function EmailUser(db: Db, email: string, newId: UserId, now: int): (Db, Answer) {
    match ByEmail(db.users, email)
    case Some(id) => (Row(db, Seen(db.users[id], now)), Found(Seen(db.users[id], now)))
    case None => Insert(db, NewUser(newId, now).(email := Some(email)))
  }

  function Refresh(u: User, username: Option<string>, displayName: Option<string>, now: int): User {
    u.(telegramUsername := Coalesce(username, u.telegramUsername),
       displayName := Coalesce(u.displayName, displayName),
       lastSeenAt := now)
  }

  ghost function TelegramUser(db: Db, telegramId: int, username: Option<string>, displayName: Option<string>,
                              phone: Option<string>, newId: UserId, now: int): (Db, Answer) {
    match ByTelegram(db.users, telegramId)
    case Some(id) =>
      var u := Refresh(db.users[id], username, displayName, now);
      var v := u.(phone := Coalesce(u.phone, phone));
      Update(db, v, Found(v))
    case None =>
      if Present(phone) && ByPhone(db.users, phone.value).Some? then
        var id := ByPhone(db.users, phone.value).value;
        var u := Refresh(db.users[id], username, displayName, now).(telegramId := Some(telegramId));
        Update(db, u, Found(u))
      else
        Insert(db, NewUser(newId, now).(phone := phone, displayName := displayName, telegramId := Some(telegramId),
                                        telegramUsername := username))
  }

  ghost function BotUser(db: Db, id: UserId, displayName: Option<string>, profile: map<ProfileField, string>,
                         createdAt: int)
    : (Db, Answer)
  {
    if id in db.users then (db, Found(db.users[id]))
    else Insert(db, NewUser(id, createdAt).(displayName := displayName, profile := profile, isBot := true))
  }

  ghost function LinkedTelegram(db: Db, userId: UserId, telegramId: int, username: Option<string>,
                                displayName: Option<string>, now: int): (Db, Answer) {
    if userId !in db.users then (db, Outcome(NoUser))
    else
      var target := Refresh(db.users[userId], username, displayName, now);
      if target.telegramId == Some(telegramId) then (Row(db, target), Outcome(Refreshed))
      else
        var linked := target.(telegramId := Some(telegramId));
        match ByTelegram(db.users, telegramId)
        case Some(owner) =>
          if owner == userId then Update(db, linked, Outcome(Linked))
          else if Present(db.users[owner].phone) || Present(db.users[owner].email) then (db, Outcome(ConflictStrong))
          else if HasSessions(db, owner) then (db, Violation)
          else
            var without := db.(users := db.users - {owner});
            if Clashes(without.users, linked) then (db, Violation) else (Row(without, linked), Outcome(Absorbed))
        case None => Update(db, linked, Outcome(Linked))
  }

  ghost function LinkedPhone(db: Db, telegramId: int, phone: string, now: int): (Db, Answer) {
    match ByTelegram(db.users, telegramId)
    case None => (db, Outcome(NoUser))
    case Some(id) =>
      if Present(db.users[id].phone) then (db, Outcome(AlreadyLinked))
      else if ByPhone(db.users, phone).Some? && ByPhone(db.users, phone).value != id then (db, Outcome(Conflict))
      else Update(db, Seen(db.users[id], now).(phone := Some(phone)), Outcome(Linked))
  }

  function Patched(u: User, patch: Patch, now: int): User {
    var cleared := set f | f in patch.profile && patch.profile[f].None?;
    var given := map f | f in patch.profile && patch.profile[f].Some? :: patch.profile[f].value;
    u.(email := if patch.email.Some? then patch.email.value else u.email,
       displayName := if patch.displayName.Some? then patch.displayName.value else u.displayName,
       profile := (u.profile - cleared) + given,
       lastSeenAt := now)
  }

  ghost function UpdatedUser(db: Db, id: UserId, patch: Patch, now: int): (Db, Answer) {
    if id !in db.users then (db, Nobody)
    else
      var u := Patched(db.users[id], patch, now);
      Update(db, u, Found(u))
  }

  predicate JtiTaken(sessions: map<string, Session>, jti: string) {
    exists s :: s in sessions && sessions[s].jti == jti
  }

  ghost function WithSession(db: Db, rec: Session): (Db, Answer) {
    if rec.id in db.sessions || rec.userId !in db.users || JtiTaken(db.sessions, rec.jti) then (db, Violation)
    else (db.(sessions := db.sessions[rec.id := rec]), Stored)
  }

  function Revoked(sessions: map<string, Session>, jti: string): map<string, Session> {
    map s | s in sessions && sessions[s].jti != jti :: sessions[s]
  }

  datatype Step =
    | FindOrCreateUser(phone: string, newId: UserId, now: int)
    | FindOrCreateEmailUser(email: string, newId: UserId, now: int)
    | FindOrCreateTelegramUser(telegramId: int, username: Option<string>, displayName: Option<string>,
                               given: Option<string>, newId: UserId, now: int)
    | InsertBotUser(id: UserId, displayName: Option<string>, profile: map<ProfileField, string>, createdAt: int)
    | LinkTelegramToUser(userId: UserId, telegramId: int, username: Option<string>, displayName: Option<string>,
      now: int)
    | LinkPhoneToTelegramUser(telegramId: int, phone: string, now: int)
    | UpdateUser(id: UserId, patch: Patch, now: int)
    | InsertSession(rec: Session)
    | RevokeSessionByJti(jti: string)

  ghost function Apply(db: Db, step: Step): (Db, Answer) {
    match step
    case FindOrCreateUser(phone, newId, now) => FoundOrCreated(db, phone, newId, now)
    case FindOrCreateEmailUser(email, newId, now) => EmailUser(db, email, newId, now)
    case FindOrCreateTelegramUser(telegramId, username, displayName, phone, newId, now) =>
      TelegramUser(db, telegramId, username, displayName, phone, newId, now)
    case InsertBotUser(id, displayName, profile, createdAt) => BotUser(db, id, displayName, profile, createdAt)
    case LinkTelegramToUser(userId, telegramId, username, displayName, now) =>
      LinkedTelegram(db, userId, telegramId, username, displayName, now)
    case LinkPhoneToTelegramUser(telegramId, phone, now) => LinkedPhone(db, telegramId, phone, now)
    case UpdateUser(id, patch, now) => UpdatedUser(db, id, patch, now)
    case InsertSession(rec) => WithSession(db, rec)
    case RevokeSessionByJti(jti) => (db.(sessions := Revoked(db.sessions, jti)), Stored)
  }

  ghost function After(steps: seq<Step>): Db {
    if steps == [] then Db(map[], map[]) else Apply(After(steps[..|steps| - 1]), steps[|steps| - 1]).0
  }

  // ---------- what every run keeps ----------

  /** Rows may be added and changed, but a row keeps its non-empty phone, and
      only a row without one may go. */
  ghost predicate PhonesKept(a: Users, b: Users) {
    forall id :: id in a && Present(a[id].phone) ==> id in b && b[id].phone == a[id].phone
  }

  lemma RowKeeps(db: Db, u: User)
    requires Valid(db) && !Clashes(db.users, u)
    ensures Valid(Row(db, u))
  {
    var v := Row(db, u).users;
    forall a, b | a in v && b in v && a != b
      ensures !Clash(v[a], v[b])
    {
      if a != u.id && b != u.id {
        assert v[a] == db.users[a] && v[b] == db.users[b];
      }
    }
  }

  /** A change that leaves the indexed columns of a row alone cannot clash. */
  lemma SameColumns(db: Db, id: UserId, u: User)
    requires Valid(db) && id in db.users
    requires u.id == id && u.phone == db.users[id].phone && u.email == db.users[id].email
    requires u.telegramId == db.users[id].telegramId
    ensures !Clashes(db.users, u)
  {
  }

  lemma DeleteKeeps(db: Db, id: UserId)
    requires Valid(db) && !HasSessions(db, id)
    ensures Valid(db.(users := db.users - {id}))
  {
  }

  lemma FoundKeeps(db: Db, u: User)
    requires Valid(db) && u.id in db.users
    requires u == Seen(db.users[u.id], u.lastSeenAt)
    ensures Valid(Row(db, u)) && PhonesKept(db.users, Row(db, u).users)
  {
    SameColumns(db, u.id, u);
    RowKeeps(db, u);
  }

  lemma CreatedKeeps(db: Db, u: User)
    requires Valid(db)
    ensures Valid(Insert(db, u).0) && PhonesKept(db.users, Insert(db, u).0.users)
  {
    if !Clashes(db.users, u) {
      RowKeeps(db, u);
    }
  }

  lemma UpdateKeeps(db: Db, u: User, answer: Answer)
    requires Valid(db) && u.id in db.users
    requires Present(db.users[u.id].phone) ==> u.phone == db.users[u.id].phone
    ensures Valid(Update(db, u, answer).0) && PhonesKept(db.users, Update(db, u, answer).0.users)
  {
    if !Clashes(db.users, u) {
      RowKeeps(db, u);
    }
  }

  lemma TelegramUserKeeps(db: Db, telegramId: int, username: Option<string>, displayName: Option<string>,
                          phone: Option<string>, newId: UserId, now: int)
    requires Valid(db)
    ensures
      var r := TelegramUser(db, telegramId, username, displayName, phone, newId, now);
      Valid(r.0) && PhonesKept(db.users, r.0.users)
  {
    hide Valid, Clashes, PhonesKept, Update, Insert;
    RowIds(db);
    match ByTelegram(db.users, telegramId)
    case Some(id) =>
      var u := Refresh(db.users[id], username, displayName, now);
      var v := u.(phone := Coalesce(u.phone, phone));
      UpdateKeeps(db, v, Found(v));
    case None =>
      if Present(phone) && ByPhone(db.users, phone.value).Some? {
        var id := ByPhone(db.users, phone.value).value;
        var u := Refresh(db.users[id], username, displayName, now).(telegramId := Some(telegramId));
        UpdateKeeps(db, u, Found(u));
      } else {
        CreatedKeeps(db, NewUser(newId, now).(
          phone := phone, displayName := displayName, telegramId := Some(telegramId), telegramUsername := username));
      }
  }

  lemma RowIds(db: Db)
    requires Valid(db)
    ensures forall id :: id in db.users ==> db.users[id].id == id
  {
  }

  lemma AbsorbKeeps(db: Db, owner: UserId, u: User)
    requires Valid(db) && owner in db.users && u.id in db.users && u.id != owner
    requires !Present(db.users[owner].phone) && !HasSessions(db, owner)
    requires u.phone == db.users[u.id].phone
    ensures
      var without := db.(users := db.users - {owner});
      !Clashes(without.users, u) ==> Valid(Row(without, u)) && PhonesKept(db.users, Row(without, u).users)
  {
    hide HasSessions, Clashes;
    DeleteKeeps(db, owner);
    var without := db.(users := db.users - {owner});
    if !Clashes(without.users, u) {
      RowKeeps(without, u);
    }
  }

  lemma LinkTelegramKeeps(db: Db, userId: UserId, telegramId: int, username: Option<string>,
      displayName: Option<string>, now: int)
    requires Valid(db)
    ensures
      var r := LinkedTelegram(db, userId, telegramId, username, displayName, now);
      Valid(r.0) && PhonesKept(db.users, r.0.users)
  {
    hide Clashes, HasSessions, Valid, PhonesKept, Update, Row;
    RowIds(db);
    SamePhones(db);
    if userId in db.users {
      var target := Refresh(db.users[userId], username, displayName, now);
      var linked := target.(telegramId := Some(telegramId));
      if target.telegramId == Some(telegramId) {
        RefreshKeeps(db, target);
      } else {
        UpdateKeeps(db, linked, Outcome(Linked));
        match ByTelegram(db.users, telegramId) {
          case Some(owner) =>
            if owner != userId && !Present(db.users[owner].phone) && !HasSessions(db, owner) {
              AbsorbKeeps(db, owner, linked);
            }
          case None =>
        }
      }
    }
  }

  lemma RefreshKeeps(db: Db, u: User)
    requires Valid(db) && u.id in db.users
    requires u.phone == db.users[u.id].phone && u.email == db.users[u.id].email
    requires u.telegramId == db.users[u.id].telegramId
    ensures Valid(Row(db, u)) && PhonesKept(db.users, Row(db, u).users)
  {
    SameColumns(db, u.id, u);
    RowKeeps(db, u);
  }

  /** Every call keeps the constraints and every resolved phone. */
  lemma ApplyKeeps(db: Db, step: Step)
    requires Valid(db)
    ensures Valid(Apply(db, step).0) && PhonesKept(db.users, Apply(db, step).0.users)
  {
    hide Valid, Clashes, PhonesKept, Update, Insert, TelegramUser, LinkedTelegram;
    RowIds(db);
    match step
    case FindOrCreateUser(phone, newId, now) =>
      match ByPhone(db.users, phone) {
        case Some(id) => FoundKeeps(db, Seen(db.users[id], now));
        case None => CreatedKeeps(db, NewUser(newId, now).(phone := Some(phone)));
      }
    case FindOrCreateEmailUser(email, newId, now) =>
      match ByEmail(db.users, email) {
        case Some(id) => FoundKeeps(db, Seen(db.users[id], now));
        case None => CreatedKeeps(db, NewUser(newId, now).(email := Some(email)));
      }
    case FindOrCreateTelegramUser(telegramId, username, displayName, phone, newId, now) =>
      TelegramUserKeeps(db, telegramId, username, displayName, phone, newId, now);
    case InsertBotUser(id, displayName, profile, createdAt) =>
      SamePhones(db);
      CreatedKeeps(db, NewUser(id, createdAt).(displayName := displayName, profile := profile, isBot := true));
    case LinkTelegramToUser(userId, telegramId, username, displayName, now) =>
      LinkTelegramKeeps(db, userId, telegramId, username, displayName, now);
    case LinkPhoneToTelegramUser(telegramId, phone, now) =>
      SamePhones(db);
      if ByTelegram(db.users, telegramId).Some? && !Present(db.users[ByTelegram(db.users, telegramId).value].phone) {
        UpdateKeeps(db, Seen(db.users[ByTelegram(db.users, telegramId).value], now).(phone := Some(phone)),
          Outcome(Linked));
      }
    case UpdateUser(id, patch, now) =>
      SamePhones(db);
      if id in db.users {
        var u := Patched(db.users[id], patch, now);
        UpdateKeeps(db, u, Found(u));
      }
    case InsertSession(rec) =>
      SessionKeeps(db, rec);
    case RevokeSessionByJti(jti) =>
      RevokeKeeps(db, jti);
  }

  lemma SamePhones(db: Db)
    ensures PhonesKept(db.users, db.users)
  {
  }

  lemma RevokeKeeps(db: Db, jti: string)
    requires Valid(db)
    ensures
      var v := db.(sessions := Revoked(db.sessions, jti));
      Valid(v) && PhonesKept(db.users, v.users) && !JtiTaken(v.sessions, jti)
  {
  }

  lemma SessionKeeps(db: Db, rec: Session)
    requires Valid(db)
    ensures Valid(WithSession(db, rec).0) && PhonesKept(db.users, WithSession(db, rec).0.users)
  {
    hide Unique;
    var v := WithSession(db, rec).0;
    forall s, t | s in v.sessions && t in v.sessions && s != t
      ensures v.sessions[s].jti != v.sessions[t].jti
    {
    }
  }

  lemma {:induction false} AfterValid(steps: seq<Step>)
    ensures Valid(After(steps))
  {
    if steps != [] {
      AfterValid(steps[..|steps| - 1]);
      ApplyKeeps(After(steps[..|steps| - 1]), steps[|steps| - 1]);
    }
  }

  lemma PhonesKeptOn(a: Users, b: Users, c: Users)
    requires PhonesKept(a, b) && PhonesKept(b, c)
    ensures PhonesKept(a, c)
  {
  }

  lemma {:induction false} PhonesKeptAfter(steps: seq<Step>, more: seq<Step>)
    ensures PhonesKept(After(steps).users, After(steps + more).users)
  {
    hide Apply, Valid, PhonesKept;
    if more == [] {
      assert steps + more == steps;
      SamePhones(After(steps));
    } else {
      var n := |more| - 1;
      assert (steps + more)[..|steps| + n] == steps + more[..n];
      PhonesKeptAfter(steps, more[..n]);
      AfterValid(steps + more[..n]);
      ApplyKeeps(After(steps + more[..n]), more[n]);
      PhonesKeptOn(After(steps).users, After(steps + more[..n]).users, After(steps + more).users);
    }
  }

  /** Once a non-empty phone resolves to a user it resolves to that user for
      ever, whatever calls follow. */
  lemma PhoneResolvesForEver(steps: seq<Step>, more: seq<Step>, phone: string)
    requires phone != "" && ByPhone(After(steps).users, phone).Some?
    ensures ByPhone(After(steps + more).users, phone) == ByPhone(After(steps).users, phone)
  {
    PhonesKeptAfter(steps, more);
    AfterValid(steps + more);
    var id := ByPhone(After(steps).users, phone).value;
    assert OwnsPhone(After(steps + more).users, id, phone);
  }

  /** An empty phone does not: linking a real one takes its place. */
  lemma EmptyPhoneReplaced(db: Db, id: UserId, telegramId: int, phone: string, now: int)
    requires Valid(db) && OwnsPhone(db.users, id, "") && OwnsTelegram(db.users, id, telegramId)
    requires phone != "" && ByPhone(db.users, phone).None?
    ensures ByPhone(Apply(db, LinkPhoneToTelegramUser(telegramId, phone, now)).0.users, "").None?
  {
    var found := ByTelegram(db.users, telegramId).value;
    assert found == id by {
      if found != id {
        assert Clash(db.users[found], db.users[id]);
      }
    }
    var u := Seen(db.users[id], now).(phone := Some(phone));
    assert !Clashes(db.users, u) by {
      forall other | other in db.users && other != id
        ensures !Clash(db.users[other], u)
      {
        assert !OwnsPhone(db.users, other, phone);
        assert !Clash(db.users[other], db.users[id]);
      }
    }
    forall other
      ensures !OwnsPhone(Row(db, u).users, other, "")
    {
      if other in db.users && other != id {
        assert !Clash(db.users[other], db.users[id]);
      }
    }
  }

  lemma AfterOne(step: Step)
    ensures After([step]) == Apply(Db(map[], map[]), step).0
  {
    hide Apply;
    assert [step][..0] == [];
  }

  lemma AfterOneMore(steps: seq<Step>, step: Step)
    ensures After(steps + [step]) == Apply(After(steps), step).0
  {
    hide Apply;
    assert (steps + [step])[..|steps|] == steps;
  }

  /** A run on which the empty phone resolves to a user and then to nobody: the
      account came from Telegram with an empty phone and is linked to a real one. */
  lemma EmptyPhoneMoves(id: UserId, telegramId: int, phone: string, before: int, now: int)
    requires phone != ""
    ensures
      var steps := [FindOrCreateTelegramUser(telegramId, None, None, Some(""), id, before)];
      && ByPhone(After(steps).users, "") == Some(id)
      && ByPhone(After(steps + [LinkPhoneToTelegramUser(telegramId, phone, now)]).users, "").None?
  {
    var first := FindOrCreateTelegramUser(telegramId, None, None, Some(""), id, before);
    var db := After([first]);
    AfterOne(first);
    AfterOneMore([first], LinkPhoneToTelegramUser(telegramId, phone, now));
    AfterValid([first]);
    var u := NewUser(id, before).(phone := Some(""), telegramId := Some(telegramId));
    assert db == Db(map[id := u], map[]);
    assert OwnsPhone(db.users, id, "") && OwnsTelegram(db.users, id, telegramId);
    assert ByPhone(db.users, phone).None?;
    EmptyPhoneReplaced(db, id, telegramId, phone, now);
  }

  /** In every run, whatever calls follow, the phone stays with its user. */
  ghost predicate StaysForEver(phone: string) {
    forall steps, more :: ByPhone(After(steps).users, phone).Some?
      ==> ByPhone(After(steps + more).users, phone) == ByPhone(After(steps).users, phone)
  }

  /** A phone stays with its user for ever exactly when it is not empty. */
  lemma StaysForEverExactly(phone: string)
    ensures StaysForEver(phone) <==> phone != ""
  {
    hide After;
    if phone != "" {
      forall steps, more | ByPhone(After(steps).users, phone).Some?
        ensures ByPhone(After(steps + more).users, phone) == ByPhone(After(steps).users, phone)
      {
        PhoneResolvesForEver(steps, more, phone);
      }
    } else {
      EmptyPhoneMoves("u", 7, "+1", 0, 1);
      var steps, more := [FindOrCreateTelegramUser(7, None, None, Some(""), "u", 0)],
        [LinkPhoneToTelegramUser(7, "+1", 1)];
      assert ByPhone(After(steps + more).users, phone) != ByPhone(After(steps).users, phone);
    }
  }

  /** In every run the unique columns are unique when set and every session's
      user exists. */
  lemma ConstraintsHold(steps: seq<Step>, a: UserId, b: UserId, s: string)
    ensures
      var db := After(steps);
      && (a in db.users && b in db.users && a != b ==>
            && (db.users[a].phone.Some? ==> db.users[a].phone != db.users[b].phone)
            && (db.users[a].email.Some? ==> db.users[a].email != db.users[b].email)
            && (db.users[a].telegramId.Some? ==> db.users[a].telegramId != db.users[b].telegramId))
      && (s in db.sessions ==> db.sessions[s].userId in db.users)
  {
    AfterValid(steps);
    if a in After(steps).users && b in After(steps).users && a != b {
      assert !Clash(After(steps).users[a], After(steps).users[b]);
    }
  }

  /** A refused call changes nothing. */
  lemma RefusedChangesNothing(db: Db, step: Step)
    requires Apply(db, step).1 == Violation
    ensures Apply(db, step).0 == db
  {
    hide Clashes, HasSessions;
  }

  lemma NoClashOnTelegram(db: Db, userId: UserId, u: User, telegramId: int)
    requires Valid(db) && userId in db.users && ByTelegram(db.users, telegramId).None?
    requires u.id == userId && u.phone == db.users[userId].phone && u.email == db.users[userId].email
    requires u.telegramId == Some(telegramId)
    ensures !Clashes(db.users, u)
  {
    forall other | other in db.users && other != userId
      ensures !Clash(db.users[other], u)
    {
      assert !OwnsTelegram(db.users, other, telegramId);
      assert !Clash(db.users[other], db.users[userId]);
    }
  }

  /** What linking a Telegram identity answers, by who holds it: a bare account
      is absorbed only when no session refers to it, and then it is gone. */
  lemma LinkTelegramDecides(db: Db, userId: UserId, telegramId: int, username: Option<string>,
      displayName: Option<string>, now: int)
    requires Valid(db)
    ensures
      var r := LinkedTelegram(db, userId, telegramId, username, displayName, now);
      var owner := ByTelegram(db.users, telegramId);
      && (r.1 == Outcome(NoUser) <==> userId !in db.users)
      && (userId in db.users && owner.None? ==> r.1 == Outcome(Linked))
      && (userId in db.users && owner == Some(userId) ==> r.1 == Outcome(Refreshed))
      && (userId in db.users && owner.Some? && owner.value != userId ==>
            var o := db.users[owner.value];
            if Present(o.phone) || Present(o.email) then r == (db, Outcome(ConflictStrong))
            else if HasSessions(db, owner.value) then r == (db, Violation)
            else r.1 == Outcome(Absorbed) && r.0.users.Keys == db.users.Keys - {owner.value})
      && (r.1.Outcome? && r.1.link in {Linked, Refreshed, Absorbed} ==>
        ByTelegram(r.0.users, telegramId) == Some(userId))
  {
    hide HasSessions, Clashes;
    LinkTelegramKeeps(db, userId, telegramId, username, displayName, now);
    if userId in db.users {
      var linked := Refresh(db.users[userId], username, displayName, now).(telegramId := Some(telegramId));
      var r := LinkedTelegram(db, userId, telegramId, username, displayName, now);
      match ByTelegram(db.users, telegramId) {
        case None =>
          assert !OwnsTelegram(db.users, userId, telegramId);
          NoClashOnTelegram(db, userId, linked, telegramId);
        case Some(owner) =>
          if owner == userId {
          } else {
            OnlyOwner(db, owner, userId, telegramId);
            var bare := !Present(db.users[owner].phone) && !Present(db.users[owner].email);
            if bare && !HasSessions(db, owner) {
              var without := db.(users := db.users - {owner});
              DeleteKeeps(db, owner);
              NobodyOwns(db, owner, telegramId);
              NoClashOnTelegram(without, userId, linked, telegramId);
              assert r.0 == Row(without, linked);
              assert userId in without.users && linked.id == userId;
              assert without.users.Keys == db.users.Keys - {owner};
              assert r.0.users.Keys == without.users.Keys + {userId};
            }
          }
      }
      if r.1.Outcome? && r.1.link in {Linked, Refreshed, Absorbed} {
        OwnerIs(r.0, userId, telegramId);
      }
    }
  }

  lemma OnlyOwner(db: Db, owner: UserId, other: UserId, telegramId: int)
    requires Valid(db) && OwnsTelegram(db.users, owner, telegramId) && other in db.users && other != owner
    ensures !OwnsTelegram(db.users, other, telegramId)
  {
    assert !Clash(db.users[owner], db.users[other]);
  }

  lemma NobodyOwns(db: Db, owner: UserId, telegramId: int)
    requires Valid(db) && OwnsTelegram(db.users, owner, telegramId)
    ensures ByTelegram(db.users - {owner}, telegramId).None?
  {
    forall id
      ensures !OwnsTelegram(db.users - {owner}, id, telegramId)
    {
      if id in db.users && id != owner {
        OnlyOwner(db, owner, id, telegramId);
      }
    }
  }

  lemma OwnerIs(db: Db, id: UserId, telegramId: int)
    requires Valid(db) && OwnsTelegram(db.users, id, telegramId)
    ensures ByTelegram(db.users, telegramId) == Some(id)
  {
    var found := ByTelegram(db.users, telegramId).value;
    if found != id {
      OnlyOwner(db, id, found, telegramId);
    }
  }

  /** A returning Telegram user is refused exactly when it has no phone yet and
      the one it brings already belongs to somebody else. */
  lemma ReturningTelegramUserRefused(db: Db, id: UserId, telegramId: int,
                                     username: Option<string>, displayName: Option<string>,
                                     phone: Option<string>, newId: UserId, now: int)
    requires Valid(db) && OwnsTelegram(db.users, id, telegramId)
    ensures TelegramUser(db, telegramId, username, displayName, phone, newId, now).1 == Violation
       <==> db.users[id].phone.None? && phone.Some? && ByPhone(db.users, phone.value).Some?
  {
    OwnerIs(db, id, telegramId);
    var u := Refresh(db.users[id], username, displayName, now);
    var v := u.(phone := Coalesce(u.phone, phone));
    if Clashes(db.users, v) {
      var other :| other in db.users && other != id && Clash(db.users[other], v);
      assert !Clash(db.users[other], db.users[id]);
      assert OwnsPhone(db.users, other, phone.value);
    } else if db.users[id].phone.None? && phone.Some? && ByPhone(db.users, phone.value).Some? {
      var other := ByPhone(db.users, phone.value).value;
      assert Clash(db.users[other], v);
    }
  }

  // ---------- what each call leaves behind ----------

  /** Nothing has changed but the row of one user. */
  ghost predicate OnlyRow(db: Db, e: Db, id: UserId) {
    && e.sessions == db.sessions && id in e.users
    && forall other :: other != id ==>
         (other in e.users <==> other in db.users) && (other in db.users ==> e.users[other] == db.users[other])
  }

  /** The row as it was, but seen just now. */
  predicate Touched(was: User, u: User, now: int) {
    && u.id == was.id && u.phone == was.phone && u.email == was.email && u.telegramId == was.telegramId
    && u.telegramUsername == was.telegramUsername && u.displayName == was.displayName
    && u.createdAt == was.createdAt && u.lastSeenAt == now && u.isBot == was.isBot && u.profile == was.profile
  }

  lemma RowIsOnly(db: Db, u: User)
    ensures OnlyRow(db, Row(db, u), u.id) && Row(db, u).users[u.id] == u
  {
  }

  /** A user signed up or in by phone: refused exactly when the phone is new and
      the id taken; else the phone resolves to the user answered, who is the one
      found, touched, or has been created with that phone and nothing else. */
  lemma PhoneSignIn(db: Db, phone: string, newId: UserId, now: int)
    requires Valid(db)
    ensures
      var (e, answer) := Apply(db, FindOrCreateUser(phone, newId, now));
      var found := ByPhone(db.users, phone);
      && (answer == Violation <==> found.None? && newId in db.users)
      && (answer != Violation ==>
            && answer.Found? && OnlyRow(db, e, answer.user.id) && e.users[answer.user.id] == answer.user
            && ByPhone(e.users, phone) == Some(answer.user.id)
            && (if found.Some? then found.value == answer.user.id && Touched(db.users[found.value], answer.user, now)
                else answer.user == User(newId, Some(phone), None, None, None, None, now, now, false, map[])))
  {
    hide TelegramUser, LinkedTelegram, LinkedPhone, UpdatedUser, EmailUser, BotUser, Valid, Clashes;
    var (e, answer) := Apply(db, FindOrCreateUser(phone, newId, now));
    ApplyKeeps(db, FindOrCreateUser(phone, newId, now));
    RowIds(db);
    if ByPhone(db.users, phone).None? {
      NewColumnNoClash(db, User(newId, Some(phone), None, None, None, None, now, now, false, map[]));
    }
    if answer != Violation {
      RowIsOnly(db, answer.user);
      PhoneOwner(e, answer.user.id, phone);
    }
  }

  lemma EmailSignIn(db: Db, email: string, newId: UserId, now: int)
    requires Valid(db)
    ensures
      var (e, answer) := Apply(db, FindOrCreateEmailUser(email, newId, now));
      var found := ByEmail(db.users, email);
      && (answer == Violation <==> found.None? && newId in db.users)
      && (answer != Violation ==>
            && answer.Found? && OnlyRow(db, e, answer.user.id) && e.users[answer.user.id] == answer.user
            && ByEmail(e.users, email) == Some(answer.user.id)
            && (if found.Some? then found.value == answer.user.id && Touched(db.users[found.value], answer.user, now)
                else answer.user == User(newId, None, Some(email), None, None, None, now, now, false, map[])))
  {
    hide TelegramUser, LinkedTelegram, LinkedPhone, UpdatedUser, FoundOrCreated, BotUser, Valid, Clashes;
    var (e, answer) := Apply(db, FindOrCreateEmailUser(email, newId, now));
    ApplyKeeps(db, FindOrCreateEmailUser(email, newId, now));
    RowIds(db);
    if ByEmail(db.users, email).None? {
      NewColumnNoClash(db, User(newId, None, Some(email), None, None, None, now, now, false, map[]));
    }
    if answer != Violation {
      RowIsOnly(db, answer.user);
      EmailOwner(e, answer.user.id, email);
    }
  }

  /** A row none of whose columns anybody has clashes with nobody. */
  lemma NewColumnNoClash(db: Db, u: User)
    requires u.phone.Some? ==> ByPhone(db.users, u.phone.value).None?
    requires u.email.Some? ==> ByEmail(db.users, u.email.value).None?
    requires u.telegramId.None?
    ensures !Clashes(db.users, u)
  {
    forall other | other in db.users && other != u.id
      ensures !Clash(db.users[other], u)
    {
      assert u.phone.Some? ==> !OwnsPhone(db.users, other, u.phone.value);
      assert u.email.Some? ==> !OwnsEmail(db.users, other, u.email.value);
    }
  }

  /** Signing in again by the same phone or email answers the same user. */
  lemma SameUserAgain(db: Db, first: Step, again: Step)
    requires Valid(db) && Apply(db, first).1 != Violation
    requires (first.FindOrCreateUser? && again.FindOrCreateUser? && again.phone == first.phone)
          || (first.FindOrCreateEmailUser? && again.FindOrCreateEmailUser? && again.email == first.email)
    ensures
      var (e, answer) := Apply(db, first);
      answer.Found? && Apply(e, again).1.Found? && Apply(e, again).1.user.id == answer.user.id
  {
    hide Apply, Valid, OnlyRow, Touched;
    ApplyKeeps(db, first);
    var e := Apply(db, first).0;
    match first {
      case FindOrCreateUser(phone, newId, now) =>
        PhoneSignIn(db, phone, newId, now);
        PhoneSignIn(e, phone, again.newId, again.now);
      case FindOrCreateEmailUser(email, newId, now) =>
        EmailSignIn(db, email, newId, now);
        EmailSignIn(e, email, again.newId, again.now);
    }
  }

  /** The columns a Telegram sign-in refreshes: a username given replaces the
      old one, a display name only fills a missing one. */
  predicate Greeted(was: User, u: User, username: Option<string>, displayName: Option<string>, now: int) {
    && u.id == was.id && u.email == was.email && u.createdAt == was.createdAt
    && u.isBot == was.isBot && u.profile == was.profile && u.lastSeenAt == now
    && u.telegramUsername == (if username.Some? then username else was.telegramUsername)
    && u.displayName == (if was.displayName.Some? then was.displayName else displayName)
  }

  /** A user signed up or in by Telegram: a returning one keeps his phone or
      takes the one he brings; else a phone he brings that is somebody's links
      him to that user; else he is new. */
  lemma TelegramSignIn(db: Db, step: Step)
    requires Valid(db) && step.FindOrCreateTelegramUser?
    ensures
      var (e, answer) := Apply(db, step);
      var byTelegram := ByTelegram(db.users, step.telegramId);
      var byPhone := if Present(step.given) then ByPhone(db.users, step.given.value) else None;
      answer != Violation ==>
        && answer.Found? && OnlyRow(db, e, answer.user.id) && e.users[answer.user.id] == answer.user
        && ByTelegram(e.users, step.telegramId) == Some(answer.user.id)
        && (byTelegram.Some? ==>
              && answer.user.id == byTelegram.value
              && Greeted(db.users[byTelegram.value], answer.user, step.username, step.displayName, step.now)
              && answer.user.phone == (if db.users[byTelegram.value].phone.Some? then db.users[byTelegram.value].phone
                                       else step.given))
        && (byTelegram.None? && byPhone.Some? ==>
              && answer.user.id == byPhone.value
              && Greeted(db.users[byPhone.value], answer.user, step.username, step.displayName, step.now)
              && answer.user.phone == step.given)
        && (byTelegram.None? && byPhone.None? ==>
              answer.user == User(step.newId, step.given, None, Some(step.telegramId), step.username, step.displayName,
                                  step.now, step.now, false, map[]))
  {
    hide LinkedTelegram, LinkedPhone, UpdatedUser, FoundOrCreated, EmailUser, BotUser, Valid, Clashes;
    var (e, answer) := Apply(db, step);
    ApplyKeeps(db, step);
    RowIds(db);
    if answer != Violation {
      RowIsOnly(db, answer.user);
      OwnerIs(e, answer.user.id, step.telegramId);
    }
  }

  /** Signing in again by Telegram answers the same user, unless it is refused. */
  lemma SameTelegramUserAgain(db: Db, first: Step, again: Step)
    requires Valid(db) && first.FindOrCreateTelegramUser? && again.FindOrCreateTelegramUser?
    requires first.telegramId == again.telegramId && Apply(db, first).1 != Violation
    ensures
      var (e, answer) := Apply(db, first);
      answer.Found? && (Apply(e, again).1 == Violation
                        || (Apply(e, again).1.Found? && Apply(e, again).1.user.id == answer.user.id))
  {
    hide Apply, Valid, OnlyRow, Greeted, Present;
    ApplyKeeps(db, first);
    TelegramSignIn(db, first);
    TelegramSignIn(Apply(db, first).0, again);
  }

  /** A sign-in by Telegram is refused for a phone or an id that somebody has,
      and for nothing else. */
  lemma TelegramRefused(db: Db, step: Step)
    requires Valid(db) && step.FindOrCreateTelegramUser?
    ensures
      var byTelegram := ByTelegram(db.users, step.telegramId);
      var taken := step.given.Some? && ByPhone(db.users, step.given.value).Some?;
      Apply(db, step).1 == Violation
      <==> if byTelegram.Some? then db.users[byTelegram.value].phone.None? && taken
           else !(Present(step.given) && taken) && (step.newId in db.users || taken)
  {
    hide LinkedTelegram, LinkedPhone, UpdatedUser, FoundOrCreated, EmailUser, BotUser, Valid, Clashes;
    var byTelegram := ByTelegram(db.users, step.telegramId);
    RowIds(db);
    if byTelegram.Some? {
      ReturningTelegramUserRefused(db, byTelegram.value, step.telegramId, step.username, step.displayName, step.given,
                                   step.newId, step.now);
    } else if Present(step.given) && ByPhone(db.users, step.given.value).Some? {
      var id := ByPhone(db.users, step.given.value).value;
      var u := Refresh(db.users[id], step.username, step.displayName, step.now).(telegramId := Some(step.telegramId));
      NoClashOnTelegram(db, id, u, step.telegramId);
    } else if step.newId !in db.users {
      var u := User(step.newId, step.given, None, Some(step.telegramId), step.username, step.displayName,
                    step.now, step.now, false, map[]);
      NewTelegramClash(db, u);
    }
  }

  lemma NewTelegramClash(db: Db, u: User)
    requires Valid(db) && u.telegramId.Some? && ByTelegram(db.users, u.telegramId.value).None? && u.email.None?
    requires u.id !in db.users
    ensures Clashes(db.users, u) <==> u.phone.Some? && ByPhone(db.users, u.phone.value).Some?
  {
    forall other | other in db.users && Clash(db.users[other], u)
      ensures u.phone.Some? && OwnsPhone(db.users, other, u.phone.value)
    {
      assert !OwnsTelegram(db.users, other, u.telegramId.value);
    }
    if u.phone.Some? && ByPhone(db.users, u.phone.value).Some? {
      var other := ByPhone(db.users, u.phone.value).value;
      assert Clash(db.users[other], u) && other != u.id;
    }
  }

  /** A bot is inserted once, with nothing to sign in by. */
  lemma BotInserted(db: Db, step: Step)
    requires Valid(db) && step.InsertBotUser?
    ensures
      var (e, answer) := Apply(db, step);
      if step.id in db.users then e == db && answer == Found(db.users[step.id])
      else
        && answer == Found(User(step.id, None, None, None, None, step.displayName,
                                step.createdAt, step.createdAt, true, step.profile))
        && OnlyRow(db, e, step.id) && e.users[step.id] == answer.user
  {
    hide LinkedTelegram, LinkedPhone, UpdatedUser, FoundOrCreated, EmailUser, TelegramUser, Valid, Clashes;
    var u := User(step.id, None, None, None, None, step.displayName, step.createdAt, step.createdAt, true,
      step.profile);
    NewColumnNoClash(db, u);
    RowIsOnly(db, u);
  }

  /** Linking a Telegram identity greets the user and gives him the id; only an
      absorbed account goes. */
  lemma TelegramLinked(db: Db, step: Step)
    requires Valid(db) && step.LinkTelegramToUser?
    ensures
      var (e, answer) := Apply(db, step);
      var id := step.userId;
      var gone := if answer == Outcome(Absorbed) then {ByTelegram(db.users, step.telegramId).value} else {};
      if answer.Outcome? && answer.link in {Linked, Refreshed, Absorbed} then
        && id in db.users && OnlyRow(db.(users := db.users - gone), e, id)
        && Greeted(db.users[id], e.users[id], step.username, step.displayName, step.now)
        && e.users[id].phone == db.users[id].phone && e.users[id].telegramId == Some(step.telegramId)
      else e == db
  {
    hide TelegramUser, LinkedPhone, UpdatedUser, FoundOrCreated, EmailUser, BotUser, Valid, Clashes, HasSessions;
    RowIds(db);
  }

  /** Linking a phone sets it exactly when the Telegram user has none and nobody
      else has it. */
  lemma PhoneLinked(db: Db, step: Step)
    requires Valid(db) && step.LinkPhoneToTelegramUser?
    ensures
      var (e, answer) := Apply(db, step);
      var owner := ByTelegram(db.users, step.telegramId);
      var holder := ByPhone(db.users, step.phone);
      && (answer == Outcome(NoUser) <==> owner.None?)
      && (answer == Outcome(AlreadyLinked) <==> owner.Some? && Present(db.users[owner.value].phone))
      && (answer == Outcome(Conflict) <==>
            && owner.Some? && !Present(db.users[owner.value].phone)
            && holder.Some? && holder.value != owner.value)
      && (if answer == Outcome(Linked) then
            && owner.Some? && OnlyRow(db, e, owner.value) && e.users[owner.value].phone == Some(step.phone)
            && Touched(db.users[owner.value].(phone := Some(step.phone)), e.users[owner.value], step.now)
          else e == db)
      && answer != Violation
  {
    hide TelegramUser, LinkedTelegram, UpdatedUser, FoundOrCreated, EmailUser, BotUser, Valid;
    var owner := ByTelegram(db.users, step.telegramId);
    RowIds(db);
    if owner.Some? && !Present(db.users[owner.value].phone) {
      var u := Seen(db.users[owner.value], step.now).(phone := Some(step.phone));
      RowIsOnly(db, u);
      forall other | other in db.users && other != owner.value && Clash(db.users[other], u)
        ensures OwnsPhone(db.users, other, step.phone)
      {
        assert !Clash(db.users[other], db.users[owner.value]) by { NoTwoClash(db, other, owner.value); }
      }
      if Clashes(db.users, u) {
        var other :| other in db.users && other != u.id && Clash(db.users[other], u);
        PhoneOwner(db, other, step.phone);
      }
    }
  }

  lemma NoTwoClash(db: Db, a: UserId, b: UserId)
    requires Valid(db) && a in db.users && b in db.users && a != b
    ensures !Clash(db.users[a], db.users[b])
  {
  }

  /** An update sets or clears exactly the columns its patch names; it is
      refused exactly for an email somebody else has. */
  lemma UserUpdated(db: Db, step: Step)
    requires Valid(db) && step.UpdateUser?
    ensures
      var (e, answer) := Apply(db, step);
      var p := step.patch;
      var given := p.email.Some? && p.email.value.Some? && step.id in db.users;
      var holder := if given then ByEmail(db.users, p.email.value.value) else None;
      && (answer == Nobody <==> step.id !in db.users)
      && (answer == Violation <==> holder.Some? && holder.value != step.id)
      && (answer.Found? ==>
            var u, was := answer.user, db.users[step.id];
            && OnlyRow(db, e, step.id) && e.users[step.id] == u
            && u.id == was.id && u.phone == was.phone && u.telegramId == was.telegramId
            && u.telegramUsername == was.telegramUsername && u.createdAt == was.createdAt && u.isBot == was.isBot
            && u.lastSeenAt == step.now
            && u.email == (match p.email { case None => was.email case Some(email) => email })
            && u.displayName == (match p.displayName { case None => was.displayName case Some(name) => name })
            && forall f :: if f in p.profile then
                             (if p.profile[f].Some? then f in u.profile && u.profile[f] == p.profile[f].value
                              else f !in u.profile)
                           else
                             (f in u.profile <==> f in was.profile) &&
                               (f in was.profile ==> u.profile[f] == was.profile[f]))
      && (answer.Found? || e == db)
  {
    hide TelegramUser, LinkedTelegram, LinkedPhone, FoundOrCreated, EmailUser, BotUser, Valid;
    RowIds(db);
    if step.id in db.users {
      var u := Patched(db.users[step.id], step.patch, step.now);
      RowIsOnly(db, u);
      PatchedClash(db, step.id, step.patch, step.now);
    }
  }

  lemma PatchedClash(db: Db, id: UserId, p: Patch, now: int)
    requires Valid(db) && id in db.users
    ensures
      var holder := if p.email.Some? && p.email.value.Some? then ByEmail(db.users, p.email.value.value) else None;
      Clashes(db.users, Patched(db.users[id], p, now)) <==> holder.Some? && holder.value != id
  {
    var u := Patched(db.users[id], p, now);
    RowIds(db);
    if Clashes(db.users, u) {
      var other :| other in db.users && other != u.id && Clash(db.users[other], u);
      NoTwoClash(db, other, id);
      assert p.email.Some? && OwnsEmail(db.users, other, p.email.value.value);
      EmailOwner(db, other, p.email.value.value);
    }
    if p.email.Some? && p.email.value.Some? && ByEmail(db.users, p.email.value.value).Some? {
      var holder := ByEmail(db.users, p.email.value.value).value;
      assert holder != id ==> Clash(db.users[holder], u);
    }
  }

  /** A session is stored as it is; revoking removes exactly the sessions with
      the token id. */
  lemma SessionsKept(db: Db, step: Step)
    requires Valid(db) && (step.InsertSession? || step.RevokeSessionByJti?)
    ensures
      var (e, answer) := Apply(db, step);
      && e.users == db.users
      && (step.InsertSession? ==>
            var taken := step.rec.id in db.sessions || step.rec.userId !in db.users
                         || exists s :: s in db.sessions && db.sessions[s].jti == step.rec.jti;
            if taken then e == db && answer == Violation
            else answer == Stored && e.sessions == db.sessions[step.rec.id := step.rec])
      && (step.RevokeSessionByJti? ==>
            forall s :: (s in e.sessions <==> s in db.sessions && db.sessions[s].jti != step.jti)
                        && (s in e.sessions ==> e.sessions[s] == db.sessions[s]))
  {
    hide TelegramUser, LinkedTelegram, LinkedPhone, FoundOrCreated, EmailUser, BotUser, UpdatedUser, Valid;
  }

  // ---------- runs that reach a refusal ----------

  /** One user signs up by phone and another through Telegram, without a phone. */
  function TwoSignUps(phone: string, telegramId: int, a: UserId, b: UserId): seq<Step> {
    [FindOrCreateUser(phone, a, 0)] + [FindOrCreateTelegramUser(telegramId, None, None, None, b, 1)]
  }

  function ByPhoneUser(phone: string, a: UserId): User {
    NewUser(a, 0).(phone := Some(phone))
  }

  function TelegramOnly(telegramId: int, b: UserId): User {
    NewUser(b, 1).(telegramId := Some(telegramId))
  }

  lemma FirstSignsUp(phone: string, a: UserId)
    ensures Apply(Db(map[], map[]), FindOrCreateUser(phone, a, 0)).0 == Db(map[a := ByPhoneUser(phone, a)], map[])
  {
    hide TelegramUser, LinkedTelegram, LinkedPhone, UpdatedUser, Clash;
  }

  lemma SecondSignsUp(phone: string, telegramId: int, a: UserId, b: UserId)
    requires a != b
    ensures
      var one := Db(map[a := ByPhoneUser(phone, a)], map[]);
      Apply(one, FindOrCreateTelegramUser(telegramId, None, None, None, b, 1)).0
      == Db(one.users[b := TelegramOnly(telegramId, b)], map[])
  {
    hide LinkedTelegram, LinkedPhone, UpdatedUser;
    var one := Db(map[a := ByPhoneUser(phone, a)], map[]);
    assert ByTelegram(one.users, telegramId).None?;
    assert !Clashes(one.users, TelegramOnly(telegramId, b));
  }

  lemma AfterTwoSignUps(phone: string, telegramId: int, a: UserId, b: UserId)
    requires a != b
    ensures
      var db := After(TwoSignUps(phone, telegramId, a, b));
      && db.users == map[a := ByPhoneUser(phone, a), b := TelegramOnly(telegramId, b)]
      && db.sessions == map[]
  {
    hide Apply, After, ByPhoneUser, TelegramOnly;
    AfterOne(FindOrCreateUser(phone, a, 0));
    FirstSignsUp(phone, a);
    AfterOneMore([FindOrCreateUser(phone, a, 0)], FindOrCreateTelegramUser(telegramId, None, None, None, b, 1));
    SecondSignsUp(phone, telegramId, a, b);
  }

  /** The Telegram user who comes back with the other's phone is refused. */
  lemma ReturnWithForeignPhone(phone: string, telegramId: int, a: UserId, b: UserId, newId: UserId, now: int)
    requires a != b
    ensures
      var db := After(TwoSignUps(phone, telegramId, a, b));
      Apply(db, FindOrCreateTelegramUser(telegramId, None, None, Some(phone), newId, now)) == (db, Violation)
  {
    AfterTwoSignUps(phone, telegramId, a, b);
    AfterValid(TwoSignUps(phone, telegramId, a, b));
    var db := After(TwoSignUps(phone, telegramId, a, b));
    assert OwnsTelegram(db.users, b, telegramId) && OwnsPhone(db.users, a, phone);
    ReturningTelegramUserRefused(db, b, telegramId, None, None, Some(phone), newId, now);
  }

  /** The bare Telegram account is absorbed into the other, but refused once it
      has a session. */
  lemma AbsorbedUnlessSignedIn(phone: string, telegramId: int, a: UserId, b: UserId, rec: Session, now: int)
    requires a != b && rec.userId == b
    ensures
      var steps, link := TwoSignUps(phone, telegramId, a, b), LinkTelegramToUser(a, telegramId, None, None, now);
      && Apply(After(steps), link).1 == Outcome(Absorbed)
      && Apply(After(steps + [InsertSession(rec)]), link).1 == Violation
  {
    hide TwoSignUps, LinkedTelegram, TelegramUser, FoundOrCreated, EmailUser, BotUser, LinkedPhone, UpdatedUser, Valid;
    var steps := TwoSignUps(phone, telegramId, a, b);
    AfterTwoSignUps(phone, telegramId, a, b);
    AfterValid(steps);
    AfterValid(steps + [InsertSession(rec)]);
    AfterOneMore(steps, InsertSession(rec));
    var db, signedIn := After(steps), After(steps + [InsertSession(rec)]);
    assert OwnsTelegram(db.users, b, telegramId);
    OwnerIs(db, b, telegramId);
    OwnerIs(signedIn, b, telegramId);
    assert signedIn.sessions[rec.id].userId == b;
    LinkTelegramDecides(db, a, telegramId, None, None, now);
    LinkTelegramDecides(signedIn, a, telegramId, None, None, now);
  }

  // ---------- the store ----------

  class Storage {
    var users: Users
    var sessions: map<string, Session>

    ghost function View(): Db
      reads this
    {
      Db(users, sessions)
    }

    constructor ()
      ensures View() == Db(map[], map[]) && Valid(View())
    {
      users, sessions := map[], map[];
    }

    method SelectByPhone(phone: string) returns (r: Option<UserId>)
      requires Valid(View())
      ensures r == ByPhone(users, phone)
    {
      if id :| id in users && users[id].phone == Some(phone) {
        r := Some(id);
        PhoneOwner(View(), id, phone);
      } else {
        r := None;
      }
    }

    method SelectByEmail(email: string) returns (r: Option<UserId>)
      requires Valid(View())
      ensures r == ByEmail(users, email)
    {
      if id :| id in users && users[id].email == Some(email) {
        r := Some(id);
        EmailOwner(View(), id, email);
      } else {
        r := None;
      }
    }

    method SelectByTelegram(telegramId: int) returns (r: Option<UserId>)
      requires Valid(View())
      ensures r == ByTelegram(users, telegramId)
    {
      if id :| id in users && users[id].telegramId == Some(telegramId) {
        r := Some(id);
        OwnerIs(View(), id, telegramId);
      } else {
        r := None;
      }
    }

    /** INSERT INTO user: false when a constraint refuses it. */
    method InsertRow(u: User) returns (answer: Answer)
      modifies this`users
      ensures (View(), answer) == Insert(old(View()), u)
    {
      if u.id in users || Clashes(users, u) {
        return Violation;
      }
      users := users[u.id := u];
      answer := Found(u);
    }

    /** UPDATE user ... WHERE id: refused when a constraint refuses it. */
    method UpdateRow(u: User, done: Answer) returns (answer: Answer)
      modifies this`users
      ensures (View(), answer) == Update(old(View()), u, done)
    {
      if Clashes(users, u) {
        return Violation;
      }
      users := users[u.id := u];
      answer := done;
    }

    method FindOrCreateUser(phone: string, newId: UserId, now: int) returns (answer: Answer)
      requires Valid(View())
      modifies this`users
      ensures (View(), answer) == Apply(old(View()), Step.FindOrCreateUser(phone, newId, now))
      ensures answer != Violation ==> answer.Found? && ByPhone(users, phone) == Some(answer.user.id)
    {
      PhoneSignIn(View(), phone, newId, now);
      var existing := SelectByPhone(phone);
      if existing.Some? {
        RowIds(View());
        var u := Seen(users[existing.value], now);
        users := users[existing.value := u];
        return Found(u);
      }
      answer := InsertRow(NewUser(newId, now).(phone := Some(phone)));
    }

    method FindOrCreateEmailUser(email: string, newId: UserId, now: int) returns (answer: Answer)
      requires Valid(View())
      modifies this`users
      ensures (View(), answer) == Apply(old(View()), Step.FindOrCreateEmailUser(email, newId, now))
      ensures answer != Violation ==> answer.Found? && ByEmail(users, email) == Some(answer.user.id)
    {
      EmailSignIn(View(), email, newId, now);
      var existing := SelectByEmail(email);
      if existing.Some? {
        RowIds(View());
        var u := Seen(users[existing.value], now);
        users := users[existing.value := u];
        return Found(u);
      }
      answer := InsertRow(NewUser(newId, now).(email := Some(email)));
    }

    method FindOrCreateTelegramUser(telegramId: int, username: Option<string>, displayName: Option<string>,
                                    phone: Option<string>, newId: UserId, now: int) returns (answer: Answer)
      requires Valid(View())
      modifies this`users
      ensures (View(), answer)
           == Apply(old(View()), Step.FindOrCreateTelegramUser(telegramId, username, displayName, phone, newId, now))
      ensures answer != Violation ==> answer.Found? && ByTelegram(users, telegramId) == Some(answer.user.id)
    {
      hide Clashes, Update, Insert;
      TelegramSignIn(View(), Step.FindOrCreateTelegramUser(telegramId, username, displayName, phone, newId, now));
      var byTelegram := SelectByTelegram(telegramId);
      if byTelegram.Some? {
        var u := Refresh(users[byTelegram.value], username, displayName, now);
        var v := u.(phone := Coalesce(u.phone, phone));
        answer := UpdateRow(v, Found(v));
        return;
      }
      if Present(phone) {
        var byPhone := SelectByPhone(phone.value);
        if byPhone.Some? {
          var u := Refresh(users[byPhone.value], username, displayName, now).(telegramId := Some(telegramId));
          answer := UpdateRow(u, Found(u));
          return;
        }
      }
      answer := InsertRow(NewUser(newId, now).(phone := phone, displayName := displayName,
                                               telegramId := Some(telegramId), telegramUsername := username));
    }

    method InsertBotUser(id: UserId, displayName: Option<string>, profile: map<ProfileField, string>, createdAt: int)
      returns (answer: Answer)
      modifies this`users
      ensures (View(), answer) == Apply(old(View()), Step.InsertBotUser(id, displayName, profile, createdAt))
    {
      if id in users {
        return Found(users[id]);
      }
      answer := InsertRow(NewUser(id, createdAt).(displayName := displayName, profile := profile, isBot := true));
    }

    method LinkTelegramToUser(userId: UserId, telegramId: int, username: Option<string>, displayName: Option<string>,
        now: int)
      returns (answer: Answer)
      requires Valid(View())
      modifies this`users
      ensures (View(), answer) == Apply(old(View()),
        Step.LinkTelegramToUser(userId, telegramId, username, displayName, now))
    {
      hide Clashes, Update, HasSessions;
      if userId !in users {
        return Outcome(NoUser);
      }
      RowIds(View());
      var target := Refresh(users[userId], username, displayName, now);
      if target.telegramId == Some(telegramId) {
        users := users[userId := target];
        return Outcome(Refreshed);
      }
      var linked := target.(telegramId := Some(telegramId));
      var owner := SelectByTelegram(telegramId);
      if owner.Some? && owner.value != userId {
        if Present(users[owner.value].phone) || Present(users[owner.value].email) {
          return Outcome(ConflictStrong);
        }
        if HasSessions(Db(users, sessions), owner.value) {
          return Violation;
        }
        var without := users - {owner.value};
        if Clashes(without, linked) {
          return Violation;
        }
        users := without[userId := linked];
        return Outcome(Absorbed);
      }
      answer := UpdateRow(linked, Outcome(Linked));
    }

    method LinkPhoneToTelegramUser(telegramId: int, phone: string, now: int) returns (answer: Answer)
      requires Valid(View())
      modifies this`users
      ensures (View(), answer) == Apply(old(View()), Step.LinkPhoneToTelegramUser(telegramId, phone, now))
    {
      hide Clashes, Update;
      var target := SelectByTelegram(telegramId);
      if target.None? {
        return Outcome(NoUser);
      }
      if Present(users[target.value].phone) {
        return Outcome(AlreadyLinked);
      }
      var owner := SelectByPhone(phone);
      if owner.Some? && owner.value != target.value {
        return Outcome(Conflict);
      }
      answer := UpdateRow(Seen(users[target.value], now).(phone := Some(phone)), Outcome(Linked));
    }

    method UpdateUser(id: UserId, patch: Patch, now: int) returns (answer: Answer)
      modifies this`users
      ensures (View(), answer) == Apply(old(View()), Step.UpdateUser(id, patch, now))
    {
      hide Clashes, Update, Patched;
      if id !in users {
        return Nobody;
      }
      var u := Patched(users[id], patch, now);
      answer := UpdateRow(u, Found(u));
    }

    method InsertSession(rec: Session) returns (answer: Answer)
      modifies this`sessions
      ensures (View(), answer) == Apply(old(View()), Step.InsertSession(rec))
    {
      if rec.id in sessions || rec.userId !in users || JtiTaken(sessions, rec.jti) {
        return Violation;
      }
      sessions := sessions[rec.id := rec];
      answer := Stored;
    }

    method RevokeSessionByJti(jti: string)
      modifies this`sessions
      ensures (View(), Stored) == Apply(old(View()), Step.RevokeSessionByJti(jti))
      ensures !JtiTaken(sessions, jti)
    {
      sessions := Revoked(sessions, jti);
    }
  }

  lemma PhoneOwner(db: Db, id: UserId, phone: string)
    requires Valid(db) && OwnsPhone(db.users, id, phone)
    ensures ByPhone(db.users, phone) == Some(id)
  {
    var found := ByPhone(db.users, phone).value;
    assert found == id || Clash(db.users[found], db.users[id]);
  }

  lemma EmailOwner(db: Db, id: UserId, email: string)
    requires Valid(db) && OwnsEmail(db.users, id, email)
    ensures ByEmail(db.users, email) == Some(id)
  {
    var found := ByEmail(db.users, email).value;
    assert found == id || Clash(db.users[found], db.users[id]);
  }
}
