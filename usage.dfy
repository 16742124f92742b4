/** The subscription context of src/context/SubscriptionContext.jsx: whether
    the signed-in user is pro, and the free tier's daily export quota, a
    counter capped at five that is kept per user and per day in the
    browser's local storage. */
module Usage {
  import opened Common
  import opened Decimal

  /** `MAX_FREE_DAILY`. */
  const MaxFreeDaily: int := 5

  /** The signed-in user as the identity provider's client hook sees it. */
  datatype ClientUser = ClientUser(id: string, publicMetadata: map<string, Json>)

  /** `useAuth()` and `useUser()` together: whether auth has loaded, whether
      someone is signed in, and the user record once it is there. */
  datatype Auth = Auth(isLoaded: bool, isSignedIn: bool, user: Option<ClientUser>)

  /** `user?.publicMetadata?.plan`. */
  function PlanOf(user: Option<ClientUser>): Option<Json>
  {
    if user.None? then None else Lookup(user.value.publicMetadata, "plan")
  }

  /** `isLoaded && isSignedIn && user?.publicMetadata?.plan === 'pro'`. */
  function IsPro(auth: Auth): (pro: bool)
    ensures pro <==> auth.isLoaded && auth.isSignedIn && auth.user.Some?
                     && "plan" in auth.user.value.publicMetadata
                     && auth.user.value.publicMetadata["plan"] == JStr("pro")
  {
    auth.isLoaded && auth.isSignedIn && PlanOf(auth.user) == Some(JStr("pro"))
  }

  /** `user?.id`. */
  function UserIdOf(auth: Auth): Option<string>
  {
    if auth.user.Some? then Some(auth.user.value.id) else None
  }

  /** The storage key of the user's count, `dailyCount_${user?.id}`. */
  function CountKey(uid: Option<string>): string
  {
    "dailyCount_" + IdText(uid)
  }

  /** The storage key of the user's usage date, `usageDate_${user?.id}`. */
  function DateKey(uid: Option<string>): string
  {
    "usageDate_" + IdText(uid)
  }

  /** The two keys never collide, whatever the id. */
  lemma DateKeyIsNotCountKey(a: Option<string>, b: Option<string>)
    ensures DateKey(a) != CountKey(b)
  {
    assert DateKey(a)[0] != CountKey(b)[0];
  }

  /** The counter as a JavaScript number: an integer, or NaN when the stored
      count did not parse. */
  datatype Count = Num(n: int) | NaN

  /** `parseInt(raw || '0', 10)` for a possibly missing stored string. */
  function StoredCount(raw: Option<string>): (c: Count)
    ensures !Truthy(raw) ==> c == Num(0)
    ensures Truthy(raw) ==> (c.NaN? <==> ParseInt(raw.value).None?)
    ensures Truthy(raw) && ParseInt(raw.value).Some? ==> c == Num(ParseInt(raw.value).value)
  {
    var parsed := ParseInt(if Truthy(raw) then raw.value else "0");
    assert ParseInt(IntToString(0)) == Some(0) by { ParseIntRoundTrip(0); }
    if parsed.Some? then Num(parsed.value) else NaN
  }

  /** `dailyCount < MAX_FREE_DAILY`; a NaN count compares false. */
  predicate QuotaAllows(c: Count)
  {
    c.Num? && c.n < MaxFreeDaily
  }

  /** What one call of `incrementUsage` answers and what the count becomes:
      unlimited for pro, one credit while the quota lasts, refusal after. */
  function IncrementStep(pro: bool, c: Count): (r: (bool, Count))
    ensures r.0 <==> pro || QuotaAllows(c)
    ensures r.1 != c <==> !pro && QuotaAllows(c)
    ensures r.1 != c ==> r.1 == Num(c.n + 1)
  {
    if pro then (true, c)
    else if QuotaAllows(c) then (true, Num(c.n + 1))
    else (false, c)
  }

  /** How many of `k` successive calls a free user is granted, starting from
      count `c`. */
  function Granted(c: Count, k: nat): nat
    decreases k
  {
    if k == 0 then 0
    else
      var (allowed, next) := IncrementStep(false, c);
      (if allowed then 1 else 0) + Granted(next, k - 1)
  }

  /** The count after `k` successive calls by a free user. */
  function CountAfter(c: Count, k: nat): Count
    decreases k
  {
    if k == 0 then c else CountAfter(IncrementStep(false, c).1, k - 1)
  }

  function Max(a: int, b: int): int
  {
    if a < b then b else a
  }

  /** However often a free user asks, the count never passes
      max(initial count, 5) and at most 5 - count credits are granted. */
  lemma {:induction false} QuotaIsCapped(n: int, k: nat)
    decreases k
    ensures CountAfter(Num(n), k).Num?
    ensures CountAfter(Num(n), k).n <= Max(n, MaxFreeDaily)
    ensures Granted(Num(n), k) <= Max(0, MaxFreeDaily - n)
    ensures Granted(Num(n), k) == CountAfter(Num(n), k).n - n
  {
    if k > 0 {
      if n < MaxFreeDaily {
        QuotaIsCapped(n + 1, k - 1);
      } else {
        QuotaIsCapped(n, k - 1);
      }
    }
  }

  /** From a count within the quota, exactly the credits left are granted,
      or every call when there are fewer calls than credits: a fresh day
      (count 0) grants five. */
  lemma {:induction false} QuotaGrantsWhatIsLeft(n: int, k: nat)
    requires 0 <= n <= MaxFreeDaily
    decreases k
    ensures Granted(Num(n), k) == if k < MaxFreeDaily - n then k else MaxFreeDaily - n
  {
    if k > 0 && n < MaxFreeDaily {
      QuotaGrantsWhatIsLeft(n + 1, k - 1);
    } else if k > 0 {
      NoCreditLeftRefusesAll(n, k);
    }
  }

  /** At or past the cap every call is refused and the count stays put. */
  lemma {:induction false} NoCreditLeftRefusesAll(n: int, k: nat)
    requires n >= MaxFreeDaily
    decreases k
    ensures Granted(Num(n), k) == 0 && CountAfter(Num(n), k) == Num(n)
  {
    if k > 0 {
      NoCreditLeftRefusesAll(n, k - 1);
    }
  }

  /** A NaN count, read from a corrupt stored value, refuses every export. */
  lemma {:induction false} NaNCountRefusesAll(k: nat)
    ensures Granted(NaN, k) == 0 && CountAfter(NaN, k) == NaN
  {
    if k > 0 {
      NaNCountRefusesAll(k - 1);
    }
  }

  /** The storage after a granted credit: the new count and today's date. */
  function UsageWritten(storage: map<string, string>, uid: Option<string>, count: int, today: string): (r: map<string, string>)
    ensures r.Keys == storage.Keys + {CountKey(uid), DateKey(uid)}
    ensures r[CountKey(uid)] == IntToString(count) && r[DateKey(uid)] == today
    ensures forall key :: key in storage && key != CountKey(uid) && key != DateKey(uid) ==> r[key] == storage[key]
  {
    storage[CountKey(uid) := IntToString(count)][DateKey(uid) := today]
  }

  /** A count written with `toString` is read back as the same count. */
  lemma StoredCountReadsBack(n: int)
    ensures StoredCount(Some(IntToString(n))) == Num(n)
  {
    ParseIntRoundTrip(n);
  }

  /** After a credit is persisted, a same-day reload finds today's date and
      adopts the count that was written. */
  lemma SameDayReloadAdoptsCount(storage: map<string, string>, uid: Option<string>, n: int, today: string)
    ensures var written := UsageWritten(storage, uid, n, today);
            && Lookup(written, DateKey(uid)) == Some(today)
            && StoredCount(Lookup(written, CountKey(uid))) == Num(n)
  {
    var written := UsageWritten(storage, uid, n, today);
    DateKeyIsNotCountKey(uid, uid);
    assert Lookup(written, CountKey(uid)) == Some(IntToString(n));
    StoredCountReadsBack(n);
  }

  /** The provider's state: `dailyCount` and the local storage it mirrors. */
  class SubscriptionState {
    const auth: Auth
    var dailyCount: Count
    var storage: map<string, string>

    /** `useState(0)` over whatever local storage already holds. */
    constructor (auth: Auth, storage: map<string, string>)
      ensures this.auth == auth && dailyCount == Num(0) && this.storage == storage
    {
      this.auth := auth;
      dailyCount := Num(0);
      this.storage := storage;
    }

    /** The day-rollover effect: adopt the stored count when the stored date
        is `today`, otherwise restart the day at 0 in state and in storage.
        Nothing happens while nobody is signed in. */
    method Rollover(today: string)
      modifies this`dailyCount, this`storage
      ensures !auth.isSignedIn ==> dailyCount == old(dailyCount) && storage == old(storage)
      ensures auth.isSignedIn && Lookup(old(storage), DateKey(UserIdOf(auth))) == Some(today) ==>
        dailyCount == StoredCount(Lookup(old(storage), CountKey(UserIdOf(auth)))) && storage == old(storage)
      ensures auth.isSignedIn && Lookup(old(storage), DateKey(UserIdOf(auth))) != Some(today) ==>
        dailyCount == Num(0) && storage == old(storage)[DateKey(UserIdOf(auth)) := today][CountKey(UserIdOf(auth)) := "0"]
    {
      if !auth.isSignedIn {
        return;
      }
      var uid := UserIdOf(auth);
      var storedDate := Lookup(storage, DateKey(uid));
      var storedCount := StoredCount(Lookup(storage, CountKey(uid)));
      if storedDate == Some(today) {
        dailyCount := storedCount;
      } else {
        dailyCount := Num(0);
        storage := storage[DateKey(uid) := today];
        storage := storage[CountKey(uid) := "0"];
      }
    }

    /** `incrementUsage`: answers whether one more export is allowed and
        spends a credit of a free user; the credit is persisted only when
        the user id is known. */
    method IncrementUsage(today: string) returns (allowed: bool)
      modifies this`dailyCount, this`storage
      ensures (allowed, dailyCount) == IncrementStep(IsPro(auth), old(dailyCount))
      ensures storage == if !IsPro(auth) && QuotaAllows(old(dailyCount)) && Truthy(UserIdOf(auth))
                         then UsageWritten(old(storage), UserIdOf(auth), old(dailyCount).n + 1, today)
                         else old(storage)
    {
      if IsPro(auth) {
        return true;
      }
      if QuotaAllows(dailyCount) {
        var newCount := dailyCount.n + 1;
        dailyCount := Num(newCount);
        var uid := UserIdOf(auth);
        if Truthy(uid) {
          storage := storage[CountKey(uid) := IntToString(newCount)];
          storage := storage[DateKey(uid) := today];
        }
        return true;
      }
      return false;
    }
  }

  /** Mount, one press, reload on the same day: the reloaded counter is the
      counter the press left, whether or not the press was granted. */
  method CreditSurvivesReload(auth: Auth, storage: map<string, string>, today: string)
    returns (allowed: bool, before: Count, after: Count)
    requires auth.isSignedIn && !IsPro(auth) && Truthy(UserIdOf(auth))
    ensures after == before
    ensures allowed ==> before.Num? && before.n <= MaxFreeDaily
    ensures !allowed ==> before.NaN? || before.n >= MaxFreeDaily
  {
    var mounted := new SubscriptionState(auth, storage);
    mounted.Rollover(today);
    allowed := mounted.IncrementUsage(today);
    before := mounted.dailyCount;
    if allowed {
      SameDayReloadAdoptsCount(mounted.storage, UserIdOf(auth), before.n, today);
    }
    var reloaded := new SubscriptionState(auth, mounted.storage);
    reloaded.Rollover(today);
    after := reloaded.dailyCount;
  }
}
