/** The export button of src/pages/LandingPage.jsx: the gating chain of
    `handleExport` (auth loaded, signed in, a credit from the daily quota,
    HD only for pro) and the "free exports left" figure the page shows. */
module Landing {
  import opened Common
  import opened Decimal
  import opened Usage

  datatype ImageKind = Png | Jpeg

  /** What one press of an export button leads to. `ExportScheduled` is the
      timer that renders the preview (when the format is one the handler
      knows) at the given scale and closes the export menu. */
  datatype ExportAction =
    | Ignored
    | SignInOpened
    | SentToPricing
    | ExportScheduled(kind: Option<ImageKind>, scale: real)

  /** The HD tier's pixel ratio and the standard tier's. */
  const HdScale: real := 3.0
  const StandardScale: real := 1.5

  function ScaleFor(quality: string): (scale: real)
    ensures scale == HdScale <==> quality == "hd"
    ensures scale == HdScale || scale == StandardScale
  {
    if quality == "hd" then HdScale else StandardScale
  }

  /** Only 'png' and 'jpg' name an image export; any other format leaves the
      timer with nothing to render. */
  function KindFor(format: string): (kind: Option<ImageKind>)
    ensures kind.Some? <==> format == "png" || format == "jpg"
    ensures kind == Some(Png) <==> format == "png"
  {
    if format == "png" then Some(Png)
    else if format == "jpg" then Some(Jpeg)
    else None
  }

  /** What `handleExport(format, quality)` does and what the counter becomes,
      as a function of the auth state and the counter before the press. */
  function ExportDecision(auth: Auth, count: Count, format: string, quality: string): (r: (ExportAction, Count))
    ensures !auth.isLoaded ==> r == (Ignored, count)
    ensures auth.isLoaded && !auth.isSignedIn ==> r == (SignInOpened, count)
    ensures r.0.ExportScheduled? ==>
      && auth.isLoaded && auth.isSignedIn
      && (IsPro(auth) || (quality != "hd" && QuotaAllows(count)))
      && r.0.kind == KindFor(format)
    ensures r.0.ExportScheduled? && r.0.scale == HdScale ==> IsPro(auth)
    ensures IsPro(auth) ==> r == (ExportScheduled(KindFor(format), ScaleFor(quality)), count)
    ensures auth.isLoaded && auth.isSignedIn && !IsPro(auth) && !QuotaAllows(count) ==> r == (SentToPricing, count)
    ensures auth.isLoaded && auth.isSignedIn && !IsPro(auth) && QuotaAllows(count) ==>
      r == (if quality == "hd" then SentToPricing else ExportScheduled(KindFor(format), StandardScale), Num(count.n + 1))
  {
    if !auth.isLoaded then (Ignored, count)
    else if !auth.isSignedIn then (SignInOpened, count)
    else
      var (allowed, next) := IncrementStep(IsPro(auth), count);
      if !allowed then (SentToPricing, next)
      else if quality == "hd" && !IsPro(auth) then (SentToPricing, next)
      else (ExportScheduled(KindFor(format), ScaleFor(quality)), next)
  }

  /** `handleExport`: the early-return chain, spending a credit through
      `incrementUsage` before the HD check. */
  method HandleExport(state: SubscriptionState, format: string, quality: string, today: string) returns (action: ExportAction)
    modifies state`dailyCount, state`storage
    ensures (action, state.dailyCount) == ExportDecision(state.auth, old(state.dailyCount), format, quality)
    ensures state.storage ==
      if state.auth.isLoaded && state.auth.isSignedIn && !IsPro(state.auth)
         && QuotaAllows(old(state.dailyCount)) && Truthy(UserIdOf(state.auth))
      then UsageWritten(old(state.storage), UserIdOf(state.auth), old(state.dailyCount).n + 1, today)
      else old(state.storage)
  {
    if !state.auth.isLoaded {
      return Ignored;
    }
    if !state.auth.isSignedIn {
      return SignInOpened;
    }
    var allowed := state.IncrementUsage(today);
    if !allowed {
      return SentToPricing;
    }
    if quality == "hd" && !IsPro(state.auth) {
      return SentToPricing;
    }
    var scale := ScaleFor(quality);
    action := ExportScheduled(KindFor(format), scale);
  }

  /** `parseInt(raw) || 0` for a possibly missing stored string, with no
      radix: a missing value, one that does not parse and a parsed 0 all
      give 0. */
  function ParsedOrZero(raw: Option<string>): (v: int)
    ensures raw.Some? && ParseIntNoRadix(raw.value).Some? ==> v == ParseIntNoRadix(raw.value).value
    ensures raw.None? || ParseIntNoRadix(raw.value).None? ==> v == 0
  {
    if raw.None? then 0
    else
      var parsed := ParseIntNoRadix(raw.value);
      if parsed.Some? then parsed.value else 0
  }

  /** `5 - (parseInt(localStorage.getItem(`dailyCount_${user?.id}`) ||
      localStorage.getItem('dailyCount')) || 0)`: the user's stored count,
      else the legacy shared key, else none spent. */
  function RemainingExports(storage: map<string, string>, uid: Option<string>): (left: int)
    ensures Truthy(Lookup(storage, CountKey(uid))) ==> left == MaxFreeDaily - ParsedOrZero(Lookup(storage, CountKey(uid)))
    ensures !Truthy(Lookup(storage, CountKey(uid))) ==> left == MaxFreeDaily - ParsedOrZero(Lookup(storage, "dailyCount"))
    ensures !Truthy(Lookup(storage, CountKey(uid))) && "dailyCount" !in storage ==> left == MaxFreeDaily
  {
    var own := Lookup(storage, CountKey(uid));
    var raw := if Truthy(own) then own else Lookup(storage, "dailyCount");
    5 - ParsedOrZero(raw)
  }

  /** A count stored as a `0x` literal is read two ways: the context's
      counter adopts it on a same-day reload as 0, while the page subtracts
      its hexadecimal value. */
  lemma RemainingReadsHexCount(storage: map<string, string>, uid: Option<string>, h: string)
    requires Lookup(storage, CountKey(uid)) == Some("0x" + h)
    requires HexRunLength(h) > 0
    ensures StoredCount(Lookup(storage, CountKey(uid))) == Num(0)
    ensures RemainingExports(storage, uid) == MaxFreeDaily - HexDigitsValue(h[..HexRunLength(h)])
  {
    HexPrefixReadsAsHex(h);
  }

  /** The instance "0x3": the page shows two exports left. */
  lemma RemainingShowsHexThree()
    ensures RemainingExports(map[CountKey(Some("u")) := "0x3"], Some("u")) == 2
  {
    HexThreeReadsAsThree();
    assert Lookup(map[CountKey(Some("u")) := "0x3"], CountKey(Some("u"))) == Some("0x3");
  }

  /** After a credit is persisted the page shows exactly the credits left
      under the new count. */
  lemma RemainingAfterCredit(storage: map<string, string>, uid: Option<string>, count: int, today: string)
    ensures RemainingExports(UsageWritten(storage, uid, count, today), uid) == MaxFreeDaily - count
  {
    var written := UsageWritten(storage, uid, count, today);
    DateKeyIsNotCountKey(uid, uid);
    assert Lookup(written, CountKey(uid)) == Some(IntToString(count));
    ParseIntNoRadixRoundTrip(count);
  }

  /** After the day rolls over the page shows the full quota. */
  lemma RemainingAfterRollover(storage: map<string, string>, uid: Option<string>, today: string)
    ensures RemainingExports(storage[DateKey(uid) := today][CountKey(uid) := "0"], uid) == MaxFreeDaily
  {
    ParseIntNoRadixRoundTrip(0);
    assert IntToString(0) == "0";
  }

  /** What the page shows agrees with the counter: a free user's granted
      press, with a known user id, leaves the figure at five minus the new
      count. */
  lemma RemainingTracksCounter(auth: Auth, storage: map<string, string>, count: Count, format: string, quality: string, today: string)
    requires auth.isLoaded && auth.isSignedIn && !IsPro(auth)
    requires Truthy(UserIdOf(auth)) && QuotaAllows(count)
    ensures var (_, next) := ExportDecision(auth, count, format, quality);
            next.Num? && RemainingExports(UsageWritten(storage, UserIdOf(auth), count.n + 1, today), UserIdOf(auth)) == MaxFreeDaily - next.n
  {
    RemainingAfterCredit(storage, UserIdOf(auth), count.n + 1, today);
  }
}
