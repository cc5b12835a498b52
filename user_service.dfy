/** Login by SMS code, the session hash, and monthly sign-in bitmaps. */
module UserService {
  import opened Common
  import opened Redis
  import opened Db

  const LOGIN_CODE_KEY := "login:code:"
  const LOGIN_CODE_TTL := 2
  const LOGIN_USER_KEY := "login:token:"
  const LOGIN_USER_TTL := 36000
  const USER_SIGN_KEY := "sign:"
  const USER_NICK_NAME_PREFIX := "user_"
  const PHONE_INVALID := "手机号格式错误!"
  const CODE_WRONG := "验证码错误!"

  function CodeKey(phone: string): string { LOGIN_CODE_KEY + phone }
  function SessionKey(userId: int): string { LOGIN_USER_KEY + Str(userId) }

  /** The second and third characters the phone pattern admits after the leading 1:
      [38][0-9], 4[579], 5[0-3,5-9] (the comma is a literal), 66, 7[0135678], 9[89]. */
  predicate CarrierPrefix(a: char, b: char)
  {
    || ((a == '3' || a == '8') && '0' <= b <= '9')
    || (a == '4' && (b == '5' || b == '7' || b == '9'))
    || (a == '5' && (('0' <= b <= '3') || b == ',' || ('5' <= b <= '9')))
    || (a == '6' && b == '6')
    || (a == '7' && (b == '0' || b == '1' || b == '3' || b == '5' || b == '6' || b == '7' || b == '8'))
    || (a == '9' && (b == '8' || b == '9'))
  }

  /** The mobile-number pattern: "1", an admitted carrier prefix, then exactly 8 digits. */
  predicate PhoneValid(phone: string)
  {
    |phone| == 11 && phone[0] == '1' && CarrierPrefix(phone[1], phone[2]) && AllDigits(phone[3..])
  }

  /** sendCode(phone): an invalid phone fails and stores nothing; otherwise a 6-digit code
      (one digit per random draw) is stored under LOGIN_CODE_KEY+phone for LOGIN_CODE_TTL
      minutes. */
  method SendCode(store: Store, phone: string, draws: seq<nat>, now: int) returns (r: Result<()>, code: string)
    requires |draws| == 6
    modifies store`strings
    ensures !PhoneValid(phone) ==> r == Fail(PHONE_INVALID) && store.strings == old(store.strings)
    ensures PhoneValid(phone) ==>
              && r == OkEmpty && code == DigitsOf(draws) && |code| == 6 && AllDigits(code)
              && store.strings == old(store.strings)[CodeKey(phone) :=
                   StrEntry(code, Some(now + ToMillis(LOGIN_CODE_TTL, Minutes)))]
              && store.Get(CodeKey(phone), now) == Some(code)
  {
    code := "";
    if !PhoneValid(phone) {
      return Fail(PHONE_INVALID), code;
    }
    code := DigitsOf(draws);
    store.Set(CodeKey(phone), code, Some(ToMillis(LOGIN_CODE_TTL, Minutes)), now);
    r := OkEmpty;
  }

  /** The session hash fields: the user's id, nick name and icon, each as a string. */
  function SessionFields(u: User): (f: map<string, string>)
    ensures f.Keys == {"id", "nickName", "icon"} && f["id"] == Str(u.id)
  {
    map["id" := Str(u.id), "nickName" := u.nickName, "icon" := u.icon]
  }

  /** The user a successful code check logs in: the single row with that phone, or a new
      row with a random nick name. */
  function LoginUser(users: seq<User>, nextId: int, phone: string, nickSuffix: string): (u: User)
    requires |UsersWithPhone(users, phone)| <= 1
    ensures u.phone == phone
    ensures UsersWithPhone(users, phone) != [] ==> u in users
    ensures UsersWithPhone(users, phone) == [] ==> u == User(nextId, phone, USER_NICK_NAME_PREFIX + nickSuffix, "")
  {
    var rows := UsersWithPhone(users, phone);
    if rows != [] then rows[0] else User(nextId, phone, USER_NICK_NAME_PREFIX + nickSuffix, "")
  }

  /** The checks login performs before any table read: the failure message, if any. */
  function LoginGate(phone: string, cached: Option<string>, code: Option<string>): (r: Option<string>)
    ensures r.None? <==> PhoneValid(phone) && cached.Some? && code == cached
    ensures r == Some(PHONE_INVALID) <==> !PhoneValid(phone)
  {
    if !PhoneValid(phone) then Some(PHONE_INVALID)
    else if cached.None? || code != cached then Some(CODE_WRONG)
    else None
  }

  /** login as written: after the checks, the user is read by phone (more than one row
      raises), created when absent, and its fields written to the session hash; the expiry
      is then set on LOGIN_CODE_KEY+token, so the session hash keeps no expiry. */
  method LoginAsWritten(store: Store, db: Tables, phone: string, code: Option<string>,
                        nickSuffix: string, jwt: int -> string, now: int) returns (r: Result<string>, u: User)
    modifies store`strings, store`hashes, db`users, db`nextUserId
    ensures var gate := LoginGate(phone, old(store.Get(CodeKey(phone), now)), code);
            && (gate.Some? ==> r == Fail(gate.value) && unchanged(store, db))
            && (gate.None? && |UsersWithPhone(old(db.users), phone)| > 1 ==> r.Raised? && unchanged(store, db))
    ensures r.Ok? ==>
              && u == LoginUser(old(db.users), old(db.nextUserId), phone, nickSuffix)
              && r == Ok(jwt(u.id))
              && db.users == (if u in old(db.users) then old(db.users) else old(db.users) + [u])
              && SessionKey(u.id) in store.hashes
              && SessionFields(u).Items <= store.hashes[SessionKey(u.id)].fields.Items
              && store.hashes[SessionKey(u.id)].expireAt ==
                   (if SessionKey(u.id) in old(store.hashes) && IsLive(old(store.hashes)[SessionKey(u.id)].expireAt, now)
                    then old(store.hashes)[SessionKey(u.id)].expireAt else None)
    ensures r.Ok? ==>
              && store.hashes[SessionKey(u.id)].fields == LiveFields(old(store.hashes), SessionKey(u.id), now) + SessionFields(u)
              && store.hashes == ExpireHash(PutAll(old(store.hashes), SessionKey(u.id), SessionFields(u), now),
                                            CodeKey(r.data), ToMillis(LOGIN_USER_TTL, Seconds), now)
              && store.strings == ExpireString(old(store.strings), CodeKey(r.data), ToMillis(LOGIN_USER_TTL, Seconds), now)
              && db.nextUserId == (if u in old(db.users) then old(db.nextUserId) else old(db.nextUserId) + 1)
  {
    u := User(0, "", "", "");
    var gate := LoginGate(phone, store.Get(CodeKey(phone), now), code);
    if gate.Some? {
      return Fail(gate.value), u;
    }
    var rows := UsersWithPhone(db.users, phone);
    if |rows| > 1 {
      return Raised("TooManyResultsException"), u;
    }
    u := LoginUser(db.users, db.nextUserId, phone, nickSuffix);
    if rows == [] {
      var created := db.SaveUser(phone, USER_NICK_NAME_PREFIX + nickSuffix);
    }
    var token := jwt(u.id);
    store.HashPutAll(SessionKey(u.id), SessionFields(u), now);
    CodeKeyIsNotSessionKey(token, u.id);
    var _ := store.Expire(CodeKey(token), ToMillis(LOGIN_USER_TTL, Seconds), now);
    r := Ok(token);
  }

  /** login as evidently intended: the same, with the expiry set on the session hash
      LOGIN_USER_KEY+id for LOGIN_USER_TTL seconds. */
  method Login(store: Store, db: Tables, phone: string, code: Option<string>,
               nickSuffix: string, jwt: int -> string, now: int) returns (r: Result<string>, u: User)
    modifies store`strings, store`hashes, db`users, db`nextUserId
    ensures var gate := LoginGate(phone, old(store.Get(CodeKey(phone), now)), code);
            && (gate.Some? ==> r == Fail(gate.value) && unchanged(store, db))
            && (gate.None? && |UsersWithPhone(old(db.users), phone)| > 1 ==> r.Raised? && unchanged(store, db))
    ensures r.Ok? ==>
              && u == LoginUser(old(db.users), old(db.nextUserId), phone, nickSuffix)
              && r == Ok(jwt(u.id))
              && db.users == (if u in old(db.users) then old(db.users) else old(db.users) + [u])
              && SessionKey(u.id) in store.hashes
              && SessionFields(u).Items <= store.hashes[SessionKey(u.id)].fields.Items
              && store.hashes[SessionKey(u.id)].expireAt == Some(now + ToMillis(LOGIN_USER_TTL, Seconds))
    ensures r.Ok? ==>
              && store.hashes == old(store.hashes)[SessionKey(u.id) :=
                   HashEntry(LiveFields(old(store.hashes), SessionKey(u.id), now) + SessionFields(u),
                             Some(now + ToMillis(LOGIN_USER_TTL, Seconds)))]
              && store.strings == ExpireString(old(store.strings), SessionKey(u.id), ToMillis(LOGIN_USER_TTL, Seconds), now)
              && db.nextUserId == (if u in old(db.users) then old(db.nextUserId) else old(db.nextUserId) + 1)
  {
    u := User(0, "", "", "");
    var gate := LoginGate(phone, store.Get(CodeKey(phone), now), code);
    if gate.Some? {
      return Fail(gate.value), u;
    }
    var rows := UsersWithPhone(db.users, phone);
    if |rows| > 1 {
      return Raised("TooManyResultsException"), u;
    }
    u := LoginUser(db.users, db.nextUserId, phone, nickSuffix);
    if rows == [] {
      var created := db.SaveUser(phone, USER_NICK_NAME_PREFIX + nickSuffix);
    }
    var token := jwt(u.id);
    store.HashPutAll(SessionKey(u.id), SessionFields(u), now);
    SessionLiveAfterPut(store.hashes[SessionKey(u.id)], now);
    ghost var fields := store.hashes[SessionKey(u.id)].fields;
    var _ := store.Expire(SessionKey(u.id), ToMillis(LOGIN_USER_TTL, Seconds), now);
    assert store.hashes[SessionKey(u.id)].fields == fields;
    r := Ok(token);
  }

  /** The key login as written expires is never the session hash's key: the prefixes
      differ at their seventh character. */
  lemma CodeKeyIsNotSessionKey(token: string, userId: int)
    ensures CodeKey(token) != SessionKey(userId)
  {
    assert CodeKey(token)[6] == 'c' && SessionKey(userId)[6] == 't';
  }

  /** A hash just written by HashPutAll is live at that instant. */
  lemma SessionLiveAfterPut(h: HashEntry, now: int)
    requires h.expireAt.None? || IsLive(h.expireAt, now)
    ensures IsLive(h.expireAt, now)
  {
  }

  // ----- sign-in bitmaps -----

  function SignKey(userId: int, d: DateTime): string
    requires CalendarFields(d)
  {
    USER_SIGN_KEY + Str(userId) + ":" + FormatMonth(d)
  }

  function BitsOf(store: Store, key: string): seq<bool>
    reads store`bitmaps
  {
    if key in store.bitmaps then store.bitmaps[key] else []
  }

  /** The run of signed days ending on `day`: bits day-s .. day-1 are set, and the bit
      before them (if any) is clear. */
  function Streak(bits: seq<bool>, day: nat): (s: nat)
    ensures s <= day
    ensures forall i :: day - s <= i < day ==> BitAt(bits, i)
    ensures s < day ==> !BitAt(bits, day - s - 1)
  {
    if day == 0 || !BitAt(bits, day - 1) then 0 else 1 + Streak(bits, day - 1)
  }

  /** sign(): sets bit dayOfMonth-1 of the user's bitmap for the month. */
  method Sign(store: Store, userId: int, now: DateTime) returns (r: Result<()>)
    requires CalendarFields(now)
    modifies store`bitmaps
    ensures r == OkEmpty
    ensures store.bitmaps == old(store.bitmaps)[SignKey(userId, now) :=
              WithBit(old(BitsOf(store, SignKey(userId, now))), now.day - 1, true)]
  {
    var key := SignKey(userId, now);
    store.SetBit(key, now.day - 1, true);
    r := OkEmpty;
  }

  /** After signing today, the streak is at least one day, and it extends the streak that
      ended yesterday. */
  lemma {:induction false} SignExtendsStreak(bits: seq<bool>, day: nat)
    requires day >= 1
    ensures Streak(WithBit(bits, day - 1, true), day) == 1 + Streak(bits, day - 1)
  {
    StreakIgnoresLaterBits(bits, WithBit(bits, day - 1, true), day - 1);
  }

  /** The streak ending on `day` depends only on the first `day` bits. */
  lemma {:induction false} StreakIgnoresLaterBits(a: seq<bool>, b: seq<bool>, day: nat)
    requires forall i: nat :: i < day ==> BitAt(a, i) == BitAt(b, i)
    ensures Streak(a, day) == Streak(b, day)
  {
    if day > 0 {
      StreakIgnoresLaterBits(a, b, day - 1);
    }
  }

  /** signCount(): reads the first dayOfMonth bits as one unsigned value and counts its
      trailing 1 bits, which is the streak of signed days ending today; an empty reply
      counts 0. */
  method SignCount(store: Store, userId: int, now: DateTime) returns (r: Result<int>)
    requires CalendarFields(now)
    ensures r == Ok(Streak(BitsOf(store, SignKey(userId, now)), now.day))
    ensures r.data <= now.day
  {
    var key := SignKey(userId, now);
    var reply := store.BitFieldGetUnsigned(key, now.day);
    ghost var bits := BitsOf(store, key);
    var cnt := 0;
    var num := reply[0];
    while num % 2 == 1
      invariant 0 <= cnt <= now.day
      invariant num == UnsignedPrefix(bits, now.day - cnt)
      invariant Streak(bits, now.day) == cnt + Streak(bits, now.day - cnt)
      decreases num
    {
      cnt := cnt + 1;
      num := num / 2;
    }
    r := Ok(cnt);
  }
}
