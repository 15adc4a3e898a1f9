/**
 * The Cloud Functions of `functions/index.js`: the server copy of the rule normaliser, the
 * `scheduleNotification`, `registerFcmToken` and `unregisterFcmToken` calls, the push sender
 * with its token hygiene, and the once-a-minute delivery sweep.
 *
 * Firestore is a value: a map from user ids to user documents, each holding its token list and
 * its `reminders` subcollection. A call returns the store after its writes. `FieldValue
 * .serverTimestamp()` and `Timestamp.now()` are the parameter `now`. The server process runs on
 * UTC, so its wall clock (the instants of `Calendar`) is UTC.
 */
module CloudFunctions {
  import opened Wrappers
  import opened Seqs
  import opened Text
  import opened Calendar
  import opened ReminderTypes
  import Recurrence

  type UserId = string
  type Token = string

  /** A document of `users/{userId}/reminders`. */
  datatype ReminderDoc = ReminderDoc(
    fields: Reminder,
    scheduledDateTime: Option<Instant>,
    notificationSent: Option<bool>,
    notificationSentAt: Option<Instant>,
    notificationLastAttemptAt: Option<Instant>,
    createdAt: Option<Instant>,
    updatedAt: Option<Instant>)

  /**
   * `users/{userId}`. `present` says whether the document itself exists: writing into the
   * `reminders` subcollection does not create it.
   */
  datatype UserDoc = UserDoc(
    present: bool,
    fcmTokens: seq<Token>,
    lastTokenUpdate: Option<Instant>,
    reminders: map<string, ReminderDoc>)

  type Store = map<UserId, UserDoc>

  /** The `HttpsError` codes the callable functions throw. */
  datatype CallError = InvalidArgument | Unknown

  /** The user document as a merge write finds it: an absent one is empty. */
  function UserOrEmpty(store: Store, userId: UserId): UserDoc {
    if userId in store then store[userId] else UserDoc(false, [], None, map[])
  }

  // ---------------------------------------------------------------------------------------
  // The server copies of the recurrence helpers
  // ---------------------------------------------------------------------------------------

  /** The server's `normalizeRecurrence`, which tests `daily`/`weekdays` before `weekly`. */
  function ServerNormalize(settings: Option<Rule>): Option<Rule> {
    if settings.None? then None
    else
      var frequency := settings.value.frequency;
      if frequency.Daily? || frequency.Weekdays? then Some(Rule(frequency, None))
      else if frequency.Weekly? then
        var days := Recurrence.NormalizedDays(Recurrence.DaysOrEmpty(settings.value));
        if |days| == 0 then None else Some(Rule(frequency, Some(days)))
      else None
  }

  /** The server and client normalisers agree on every input. */
  lemma ServerNormalizeAgrees(settings: Option<Rule>)
    ensures ServerNormalize(settings) == Recurrence.Normalize(settings)
  {
  }

  /** `formatDate` and `formatTime`: the ISO date and `HH:MM` of an instant, in UTC. */
  function FormatUtc(t: Instant): (DateText, TimeText) {
    FormatLocal(t)
  }

  /**
   * A client whose clock runs `offset` ms ahead of UTC writes `FormatLocal(t + offset)` for the
   * minute-aligned instant `t`; the server writes `FormatUtc(t)`. The two agree only at offset 0.
   */
  lemma UtcAndLocalFormatsDiffer(t: Instant, offset: int)
    requires t % MinuteMs == 0 && offset % MinuteMs == 0
    ensures FormatLocal(t + offset) == FormatUtc(t) <==> offset == 0
  {
    if FormatLocal(t + offset) == FormatUtc(t) {
      FormatThenParse(t);
      FormatThenParse(t + offset);
      assert (t + offset) % MinuteMs == 0;
    }
  }

  // ---------------------------------------------------------------------------------------
  // scheduleNotification
  // ---------------------------------------------------------------------------------------

  /** The `data` of a `scheduleNotification` call; `createdAt` is the reminder's own field. */
  datatype ScheduleRequest = ScheduleRequest(
    reminder: Option<Reminder>,
    createdAt: Option<Instant>,
    fcmToken: Option<Token>,
    userId: Option<UserId>)

  /** A string argument JavaScript treats as true: present and non-empty. */
  predicate Truthy(s: Option<string>) { s.Some? && s.value != "" }

  /**
   * `scheduledDateTime`: the date and time, or midnight of a date without a time, or nothing
   * without a date. A date string that does not parse gives an Invalid Date, and
   * `Timestamp.fromDate` throws on it.
   */
  function ScheduledInstant(date: DateText, time: TimeText): (r: Result<Option<Instant>, CallError>)
    ensures date.NoDate? ==> r == Success(None)
    ensures date.Ymd? && time.Hm? ==> r == Success(Some(date.day * DayMs + time.minute * MinuteMs))
    ensures date.Ymd? && time.NoTime? ==> r == Success(Some(StartOfDay(date.day * DayMs)))
    ensures r.Failure? <==> date.BadDate? || (date.Ymd? && time.BadTime?)
  {
    if date.NoDate? then Success(None)
    else if time.NoTime? then
      if date.Ymd? then Success(ParseLocal(date, Hm(0))) else Failure(Unknown)
    else
      match ParseLocal(date, time)
      case Some(t) => Success(Some(t))
      case None => Failure(Unknown)
  }

  /**
   * `scheduleNotification`. A call without a reminder, a reminder id or a user id is rejected
   * with `invalid-argument`; an unparseable date with `unknown`. Otherwise the reminder is merged
   * into its document with a normalised rule, its scheduled instant, `notificationSent = false`,
   * no `notificationSentAt` and fresh timestamps, and a supplied token joins the user's list.
   */
  function ScheduleNotification(store: Store, req: ScheduleRequest, now: Instant)
    : (r: Result<Store, CallError>)
    ensures r == Failure(InvalidArgument) <==>
      req.reminder.None? || !Truthy(req.userId) || req.reminder.value.id == ""
    ensures !(req.reminder.None? || !Truthy(req.userId) || req.reminder.value.id == "") ==>
      (r.Success? <==> ScheduledInstant(req.reminder.value.date, req.reminder.value.time).Success?)
    ensures r.Failure? && r != Failure(InvalidArgument) ==> r == Failure(Unknown)
    ensures r.Success? ==>
      var u := req.userId.value;
      var rem := req.reminder.value;
      r.value.Keys == store.Keys + {u} &&
      (forall v :: v in store && v != u ==> r.value[v] == store[v]) &&
      r.value[u].reminders.Keys == UserOrEmpty(store, u).reminders.Keys + {rem.id} &&
      (forall id :: id in UserOrEmpty(store, u).reminders && id != rem.id ==>
        r.value[u].reminders[id] == UserOrEmpty(store, u).reminders[id]) &&
      var doc := r.value[u].reminders[rem.id];
      doc.fields == rem.(recurrence := Recurrence.Normalize(rem.recurrence)) &&
      Success(doc.scheduledDateTime) == ScheduledInstant(rem.date, rem.time) &&
      doc.notificationSent == Some(false) && doc.notificationSentAt.None? &&
      doc.updatedAt == Some(now) &&
      doc.createdAt == (if req.createdAt.Some? then req.createdAt else Some(now)) &&
      (forall t :: t in r.value[u].fcmTokens <==>
        t in UserOrEmpty(store, u).fcmTokens || (Truthy(req.fcmToken) && t == req.fcmToken.value))
  {
    if req.reminder.None? || !Truthy(req.userId) || req.reminder.value.id == "" then
      Failure(InvalidArgument)
    else
      var u, rem := req.userId.value, req.reminder.value;
      match ScheduledInstant(rem.date, rem.time)
      case Failure(e) => Failure(e)
      case Success(sdt) =>
        var user := UserOrEmpty(store, u);
        var kept := if rem.id in user.reminders then user.reminders[rem.id].notificationLastAttemptAt else None;
        var doc := ReminderDoc(
          rem.(recurrence := Recurrence.Normalize(rem.recurrence)), sdt, Some(false), None, kept,
          if req.createdAt.Some? then req.createdAt else Some(now), Some(now));
        var withReminder := user.(reminders := user.reminders[rem.id := doc]);
        var withToken :=
          if Truthy(req.fcmToken) then
            withReminder.(present := true, fcmTokens := ArrayUnion(withReminder.fcmTokens, req.fcmToken.value),
                          lastTokenUpdate := Some(now))
          else withReminder;
        Success(store[u := withToken])
  }

  /** A merge keeps the last-attempt stamp of a reminder document that was already stored. */
  lemma ScheduleKeepsLastAttempt(store: Store, req: ScheduleRequest, now: Instant)
    requires ScheduleNotification(store, req, now).Success?
    requires req.userId.value in store && req.reminder.value.id in store[req.userId.value].reminders
    ensures
      var r := ScheduleNotification(store, req, now).value;
      var u, id := req.userId.value, req.reminder.value.id;
      r[u].reminders[id].notificationLastAttemptAt == store[u].reminders[id].notificationLastAttemptAt
  {
  }

  /** Without a token the call does not create the user document. */
  lemma ScheduleWithoutTokenLeavesUserDoc(store: Store, req: ScheduleRequest, now: Instant)
    requires ScheduleNotification(store, req, now).Success? && !Truthy(req.fcmToken)
    ensures
      var u := req.userId.value;
      var r := ScheduleNotification(store, req, now).value;
      r[u].present == UserOrEmpty(store, u).present &&
      r[u].fcmTokens == UserOrEmpty(store, u).fcmTokens &&
      r[u].lastTokenUpdate == UserOrEmpty(store, u).lastTokenUpdate
  {
  }

  // ---------------------------------------------------------------------------------------
  // registerFcmToken / unregisterFcmToken
  // ---------------------------------------------------------------------------------------

  /** `registerFcmToken`: `arrayUnion` of the token into the user's list, creating the document. */
  function RegisterFcmToken(store: Store, fcmToken: Option<Token>, userId: Option<UserId>, now: Instant)
    : (r: Result<Store, CallError>)
    ensures r.Failure? <==> !Truthy(fcmToken) || !Truthy(userId)
    ensures r.Failure? ==> r.error == InvalidArgument
    ensures r.Success? ==>
      var u := userId.value;
      r.value.Keys == store.Keys + {u} &&
      (forall v :: v in store && v != u ==> r.value[v] == store[v]) &&
      r.value[u].present && r.value[u].lastTokenUpdate == Some(now) &&
      r.value[u].reminders == UserOrEmpty(store, u).reminders &&
      (forall t :: t in r.value[u].fcmTokens <==> t in UserOrEmpty(store, u).fcmTokens || t == fcmToken.value) &&
      (fcmToken.value in UserOrEmpty(store, u).fcmTokens ==>
        r.value[u].fcmTokens == UserOrEmpty(store, u).fcmTokens)
  {
    if !Truthy(fcmToken) || !Truthy(userId) then Failure(InvalidArgument)
    else
      var user := UserOrEmpty(store, userId.value);
      Success(store[userId.value := user.(present := true,
        fcmTokens := ArrayUnion(user.fcmTokens, fcmToken.value), lastTokenUpdate := Some(now))])
  }

  /** `unregisterFcmToken`: `arrayRemove` of every copy of the token, creating the document. */
  function UnregisterFcmToken(store: Store, fcmToken: Option<Token>, userId: Option<UserId>, now: Instant)
    : (r: Result<Store, CallError>)
    ensures r.Failure? <==> !Truthy(fcmToken) || !Truthy(userId)
    ensures r.Failure? ==> r.error == InvalidArgument
    ensures r.Success? ==>
      var u := userId.value;
      r.value.Keys == store.Keys + {u} &&
      (forall v :: v in store && v != u ==> r.value[v] == store[v]) &&
      r.value[u].present && r.value[u].lastTokenUpdate == Some(now) &&
      r.value[u].reminders == UserOrEmpty(store, u).reminders &&
      (forall t :: t in r.value[u].fcmTokens <==> t in UserOrEmpty(store, u).fcmTokens && t != fcmToken.value)
  {
    if !Truthy(fcmToken) || !Truthy(userId) then Failure(InvalidArgument)
    else
      var user := UserOrEmpty(store, userId.value);
      Success(store[userId.value := user.(present := true,
        fcmTokens := RemoveAll(user.fcmTokens, [fcmToken.value]), lastTokenUpdate := Some(now))])
  }

  /** Registering the same token twice is the same as registering it once. */
  lemma RegisterIdempotent(store: Store, fcmToken: Option<Token>, userId: Option<UserId>, now: Instant)
    requires RegisterFcmToken(store, fcmToken, userId, now).Success?
    ensures RegisterFcmToken(RegisterFcmToken(store, fcmToken, userId, now).value, fcmToken, userId, now)
      == RegisterFcmToken(store, fcmToken, userId, now)
  {
    var u := userId.value;
    var once := RegisterFcmToken(store, fcmToken, userId, now).value;
    assert fcmToken.value in once[u].fcmTokens;
    var user := once[u];
    assert user.(present := true, fcmTokens := ArrayUnion(user.fcmTokens, fcmToken.value),
                 lastTokenUpdate := Some(now)) == user;
    assert once[u := user] == once;
  }

  /** Unregistering the same token twice is the same as unregistering it once. */
  lemma UnregisterIdempotent(store: Store, fcmToken: Option<Token>, userId: Option<UserId>, now: Instant)
    requires UnregisterFcmToken(store, fcmToken, userId, now).Success?
    ensures UnregisterFcmToken(UnregisterFcmToken(store, fcmToken, userId, now).value, fcmToken, userId, now)
      == UnregisterFcmToken(store, fcmToken, userId, now)
  {
    var u, t := userId.value, fcmToken.value;
    var once := UnregisterFcmToken(store, fcmToken, userId, now).value;
    RemoveAllAbsent(once[u].fcmTokens, [t]);
    var user := once[u];
    assert user.(present := true, fcmTokens := RemoveAll(user.fcmTokens, [t]),
                 lastTokenUpdate := Some(now)) == user;
    assert once[u := user] == once;
  }

  lemma {:induction false} RemoveAllAbsent(xs: seq<Token>, ys: seq<Token>)
    requires forall x :: x in xs ==> x !in ys
    ensures RemoveAll(xs, ys) == xs
  {
    if xs != [] {
      RemoveAllAbsent(xs[1..], ys);
      assert xs == [xs[0]] + xs[1..];
    }
  }

  // ---------------------------------------------------------------------------------------
  // sendFCMNotification
  // ---------------------------------------------------------------------------------------

  /** The error codes a send can report for a token. */
  datatype ErrorCode =
    | RegistrationTokenNotRegistered
    | InvalidRegistrationToken
    | MismatchedCredential
    | OtherCode(name: string)

  /** What the messaging gateway reports for one token of a multicast. */
  datatype TokenResult = Delivered | Failed(code: ErrorCode)

  /** The three codes after which a token is removed from the user's list. */
  predicate IsInvalidTokenResult(r: TokenResult) {
    r.Failed? &&
    (r.code.RegistrationTokenNotRegistered? || r.code.InvalidRegistrationToken? ||
     r.code.MismatchedCredential?)
  }

  const ChunkSize: nat := 500

  /** A token with a character other than white space, so that `token.trim()` is truthy. */
  predicate IsUsableToken(t: Token) {
    t != [] && (!IsSpace(t[0]) || IsUsableToken(t[1..]))
  }

  /** A token is usable exactly when trimming it leaves something. */
  lemma UsableIffTrimmed(t: Token)
    ensures IsUsableToken(t) <==> Trim(t) != ""
  {
    TrimEmptyIffBlank(t);
    UsableIffNotBlank(t);
  }

  /** A token is usable exactly when it is not all white space. */
  lemma {:induction false} UsableIffNotBlank(t: Token)
    ensures IsUsableToken(t) <==> !AllSpace(t)
  {
    if t != [] {
      UsableIffNotBlank(t[1..]);
      assert AllSpace(t) <==> IsSpace(t[0]) && AllSpace(t[1..]) by {
        if IsSpace(t[0]) && AllSpace(t[1..]) {
          forall i | 0 <= i < |t| ensures IsSpace(t[i]) {
            if i > 0 { assert t[i] == t[1..][i - 1]; }
          }
        }
      }
    }
  }

  /** The tokens the sender uses: every non-blank one, in order. */
  function UsableTokens(tokens: seq<Token>): (r: seq<Token>)
    ensures forall t :: t in r <==> t in tokens && IsUsableToken(t)
    ensures |r| <= |tokens|
  {
    if tokens == [] then []
    else if IsUsableToken(tokens[0]) then [tokens[0]] + UsableTokens(tokens[1..])
    else UsableTokens(tokens[1..])
  }

  /** How many of the tokens the gateway delivers to. */
  function CountDelivered(tokens: seq<Token>, results: Token -> TokenResult): (n: nat)
    ensures n <= |tokens|
  {
    if tokens == [] then 0
    else (if results(tokens[0]).Delivered? then 1 else 0) + CountDelivered(tokens[1..], results)
  }

  /** The tokens, in order, whose result is one of the three invalid-token codes. */
  function InvalidTokensOf(tokens: seq<Token>, results: Token -> TokenResult): (r: seq<Token>)
    ensures forall t :: t in r <==> t in tokens && IsInvalidTokenResult(results(t))
  {
    if tokens == [] then []
    else if IsInvalidTokenResult(results(tokens[0])) then [tokens[0]] + InvalidTokensOf(tokens[1..], results)
    else InvalidTokensOf(tokens[1..], results)
  }

  lemma {:induction false} CountDeliveredAppend(a: seq<Token>, b: seq<Token>, results: Token -> TokenResult)
    ensures CountDelivered(a + b, results) == CountDelivered(a, results) + CountDelivered(b, results)
  {
    if a != [] {
      assert (a + b)[1..] == a[1..] + b;
      CountDeliveredAppend(a[1..], b, results);
    } else {
      assert a + b == b;
    }
  }

  lemma {:induction false} InvalidTokensAppend(a: seq<Token>, b: seq<Token>, results: Token -> TokenResult)
    ensures InvalidTokensOf(a + b, results) == InvalidTokensOf(a, results) + InvalidTokensOf(b, results)
  {
    if a != [] {
      assert (a + b)[1..] == a[1..] + b;
      InvalidTokensAppend(a[1..], b, results);
    } else {
      assert a + b == b;
    }
  }

  /** The tokens of a sequence of chunks, in order. */
  function Concat(chunks: seq<seq<Token>>): seq<Token> {
    if chunks == [] then [] else Concat(chunks[..|chunks| - 1]) + chunks[|chunks| - 1]
  }

  /** The answer of `sendEachForMulticast`. */
  datatype MulticastResponse = MulticastResponse(successCount: nat, failureCount: nat, responses: seq<TokenResult>)

  /** `admin.messaging().sendEachForMulticast`: one result per token, counted. */
  function SendEachForMulticast(tokens: seq<Token>, results: Token -> TokenResult): (r: MulticastResponse)
    ensures |r.responses| == |tokens|
    ensures forall i :: 0 <= i < |tokens| ==> r.responses[i] == results(tokens[i])
    ensures r.successCount == CountDelivered(tokens, results)
    ensures r.successCount + r.failureCount == |tokens|
  {
    var n := CountDelivered(tokens, results);
    MulticastResponse(n, |tokens| - n, seq(|tokens|, i requires 0 <= i < |tokens| => results(tokens[i])))
  }

  /** The `{ successCount, failureCount }` that `sendFCMNotification` returns. */
  datatype SendResult = SendResult(successCount: nat, failureCount: nat)

  /**
   * `sendFCMNotification` for the user document `user`, the gateway answering `results(t)` for
   * token `t`. With no usable token it returns nothing and writes nothing. Otherwise it sends the
   * usable tokens in chunks of at most 500, adds up the counts, and removes from the user's list
   * every token that came back with an invalid-token code.
   */
  method SendFcmNotification(user: UserDoc, results: Token -> TokenResult, now: Instant)
    returns (sent: Option<SendResult>, after: UserDoc, ghost chunks: seq<seq<Token>>)
    ensures var tokens := UsableTokens(user.fcmTokens);
      (sent.None? <==> tokens == []) &&
      (sent.Some? ==>
        sent.value.successCount == CountDelivered(tokens, results) &&
        sent.value.successCount + sent.value.failureCount == |tokens|)
    ensures Concat(chunks) == UsableTokens(user.fcmTokens)
    ensures forall c :: c in chunks ==> 0 < |c| <= ChunkSize
    ensures var invalid := InvalidTokensOf(UsableTokens(user.fcmTokens), results);
      after == user.(fcmTokens := RemoveAll(user.fcmTokens, invalid),
                     lastTokenUpdate := if invalid == [] then user.lastTokenUpdate else Some(now))
  {
    var tokens := UsableTokens(user.fcmTokens);
    chunks := [];
    if |tokens| == 0 {
      RemoveAllAbsent(user.fcmTokens, []);
      return None, user, chunks;
    }
    var totalSuccess: nat, totalFailure: nat := 0, 0;
    var invalidTokens: seq<Token> := [];
    var i := 0;
    while i < |tokens|
      invariant 0 <= i <= |tokens|
      invariant totalSuccess == CountDelivered(tokens[..i], results)
      invariant totalSuccess + totalFailure == i
      invariant invalidTokens == InvalidTokensOf(tokens[..i], results)
      invariant Concat(chunks) == tokens[..i]
      invariant forall c :: c in chunks ==> 0 < |c| <= ChunkSize
      decreases |tokens| - i
    {
      var end := if i + ChunkSize < |tokens| then i + ChunkSize else |tokens|;
      var tokenChunk := tokens[i..end];
      var response := SendEachForMulticast(tokenChunk, results);
      totalSuccess := totalSuccess + response.successCount;
      totalFailure := totalFailure + response.failureCount;
      invalidTokens := NoteInvalidTokens(invalidTokens, tokenChunk, response.responses, results);
      ChunkExtends(tokens, i, end, chunks, results);
      chunks := chunks + [tokenChunk];
      i := end;
    }
    assert tokens[..i] == tokens;
    sent := Some(SendResult(totalSuccess, totalFailure));
    after := RecordInvalidTokens(user, invalidTokens, now);
  }

  /** One more chunk of the multicast loop extends the counted prefix and the chunk list. */
  lemma ChunkExtends(tokens: seq<Token>, i: nat, end: nat, chunks: seq<seq<Token>>, results: Token -> TokenResult)
    requires i < end <= |tokens| && end - i <= ChunkSize
    requires Concat(chunks) == tokens[..i]
    requires forall c :: c in chunks ==> 0 < |c| <= ChunkSize
    ensures CountDelivered(tokens[..end], results) == CountDelivered(tokens[..i], results) + CountDelivered(tokens[i..end], results)
    ensures InvalidTokensOf(tokens[..end], results) == InvalidTokensOf(tokens[..i], results) + InvalidTokensOf(tokens[i..end], results)
    ensures Concat(chunks + [tokens[i..end]]) == tokens[..end]
    ensures forall c :: c in chunks + [tokens[i..end]] ==> 0 < |c| <= ChunkSize
  {
    assert tokens[..end] == tokens[..i] + tokens[i..end];
    CountDeliveredAppend(tokens[..i], tokens[i..end], results);
    InvalidTokensAppend(tokens[..i], tokens[i..end], results);
    assert (chunks + [tokens[i..end]])[..|chunks|] == chunks;
  }

  /** The write after the multicast loop: drop the invalid tokens and stamp the update, only when there are any. */
  method RecordInvalidTokens(user: UserDoc, invalidTokens: seq<Token>, now: Instant) returns (after: UserDoc)
    ensures after == user.(fcmTokens := RemoveAll(user.fcmTokens, invalidTokens),
                           lastTokenUpdate := if invalidTokens == [] then user.lastTokenUpdate else Some(now))
  {
    after := user;
    if |invalidTokens| > 0 {
      after := user.(fcmTokens := RemoveAll(user.fcmTokens, invalidTokens), lastTokenUpdate := Some(now));
    } else {
      RemoveAllAbsent(user.fcmTokens, invalidTokens);
    }
  }

  /** The `responses.forEach` of one chunk: appends the chunk's invalid tokens, in order. */
  method NoteInvalidTokens(invalidTokens: seq<Token>, tokenChunk: seq<Token>, responses: seq<TokenResult>,
                           ghost results: Token -> TokenResult)
    returns (noted: seq<Token>)
    requires |responses| == |tokenChunk|
    requires forall i :: 0 <= i < |tokenChunk| ==> responses[i] == results(tokenChunk[i])
    ensures noted == invalidTokens + InvalidTokensOf(tokenChunk, results)
  {
    noted := invalidTokens;
    var j := 0;
    while j < |responses|
      invariant 0 <= j <= |tokenChunk|
      invariant noted == invalidTokens + InvalidTokensOf(tokenChunk[..j], results)
    {
      assert tokenChunk[..j + 1] == tokenChunk[..j] + [tokenChunk[j]];
      InvalidTokensAppend(tokenChunk[..j], [tokenChunk[j]], results);
      if IsInvalidTokenResult(responses[j]) {
        noted := noted + [tokenChunk[j]];
      }
      j := j + 1;
    }
    assert tokenChunk[..j] == tokenChunk;
  }

  /**
   * The send keeps a token exactly when it is blank or did not come back with one of the three
   * invalid-token codes.
   */
  lemma PruneExactlyInvalid(tokens: seq<Token>, results: Token -> TokenResult, t: Token)
    ensures t in RemoveAll(tokens, InvalidTokensOf(UsableTokens(tokens), results)) <==>
      t in tokens && !(IsUsableToken(t) && IsInvalidTokenResult(results(t)))
  {
  }

  /** A token is delivered to exactly when the count is positive. */
  lemma {:induction false} CountDeliveredPositive(tokens: seq<Token>, results: Token -> TokenResult)
    ensures CountDelivered(tokens, results) > 0 <==> exists t :: t in tokens && results(t).Delivered?
  {
    if tokens != [] {
      CountDeliveredPositive(tokens[1..], results);
      assert forall t :: t in tokens <==> t == tokens[0] || t in tokens[1..];
    }
  }

  // ---------------------------------------------------------------------------------------
  // Token lists after several prunes
  // ---------------------------------------------------------------------------------------

  /** The tokens of `tokens` that are not in `bad`, in order. */
  function Prune(tokens: seq<Token>, bad: set<Token>): (r: seq<Token>)
    ensures forall t :: t in r <==> t in tokens && t !in bad
  {
    if tokens == [] then []
    else if tokens[0] in bad then Prune(tokens[1..], bad)
    else [tokens[0]] + Prune(tokens[1..], bad)
  }

  lemma {:induction false} RemoveAllIsPrune(tokens: seq<Token>, ys: seq<Token>, bad: set<Token>)
    requires forall t :: t in tokens ==> (t in ys <==> t in bad)
    ensures RemoveAll(tokens, ys) == Prune(tokens, bad)
  {
    if tokens != [] {
      RemoveAllIsPrune(tokens[1..], ys, bad);
    }
  }

  lemma {:induction false} PruneTwice(tokens: seq<Token>, a: set<Token>, b: set<Token>, c: set<Token>)
    requires forall t :: t in tokens ==> (t in c <==> t in a || t in b)
    ensures Prune(Prune(tokens, a), b) == Prune(tokens, c)
  {
    if tokens != [] {
      PruneTwice(tokens[1..], a, b, c);
    }
  }

  lemma {:induction false} PruneNothing(tokens: seq<Token>, bad: set<Token>)
    requires forall t :: t in tokens ==> t !in bad
    ensures Prune(tokens, bad) == tokens
  {
    if tokens != [] {
      PruneNothing(tokens[1..], bad);
      assert tokens == [tokens[0]] + tokens[1..];
    }
  }

  // ---------------------------------------------------------------------------------------
  // sendScheduledNotifications
  // ---------------------------------------------------------------------------------------

  /**
   * The sweep's query: a scheduled instant inside [now, now + 60 000 ms] (both ends included),
   * `notificationSent == false` and `completed == false`.
   */
  predicate Eligible(doc: ReminderDoc, now: Instant) {
    doc.scheduledDateTime.Some? &&
    now <= doc.scheduledDateTime.value <= now + MinuteMs &&
    doc.notificationSent == Some(false) && !doc.fields.completed
  }

  /** The instant the next occurrence counts from: the scheduled one, else date and time (09:00). */
  function BaseDate(doc: ReminderDoc): Recurrence.Moment {
    if doc.scheduledDateTime.Some? then Recurrence.At(doc.scheduledDateTime.value)
    else
      var time := if doc.fields.time.NoTime? then Hm(9 * 60) else doc.fields.time;
      match ParseLocal(doc.fields.date, time)
      case Some(t) => Recurrence.At(t)
      case None => Recurrence.InvalidDate
  }

  /** The update of a delivered recurring reminder: moved to `next`, reopened and unsent. */
  function Advanced(doc: ReminderDoc, next: Instant, rule: Rule): ReminderDoc {
    doc.(fields := doc.fields.(date := FormatUtc(next).0, time := FormatUtc(next).1,
                               completed := false, recurrence := Some(rule)),
         notificationSent := Some(false), notificationSentAt := None,
         scheduledDateTime := Some(next))
  }

  /** The update of a delivered one-shot reminder. */
  function MarkedSent(doc: ReminderDoc, now: Instant): ReminderDoc {
    doc.(notificationSent := Some(true), notificationSentAt := Some(now))
  }

  /** The update of a reminder nothing was delivered for. */
  function AttemptRecorded(doc: ReminderDoc, now: Instant): ReminderDoc {
    doc.(notificationLastAttemptAt := Some(now))
  }

  /** The rule the sweep works with: the stored one, normalised on load and again before use. */
  function SweepRule(doc: ReminderDoc): Option<Rule> {
    Recurrence.Normalize(Recurrence.Normalize(doc.fields.recurrence))
  }

  /**
   * The document after the sweep handled it: `delivered` says whether at least one token took
   * the push. Formatting an Invalid Date throws inside the `try`, which leaves the document.
   */
  function Settle(doc: ReminderDoc, delivered: bool, now: Instant): ReminderDoc {
    if !delivered then AttemptRecorded(doc, now)
    else if SweepRule(doc).None? then MarkedSent(doc, now)
    else
      match Recurrence.NextOccurrence(BaseDate(doc), SweepRule(doc))
      case Some(next) => if next.At? then Advanced(doc, next.t, SweepRule(doc).value) else doc
      case None => MarkedSent(doc, now)
  }

  /**
   * A delivered eligible reminder with an active rule moves to the next occurrence after its
   * scheduled instant, is left unsent and open, and is not due again in the same window; one
   * without a next occurrence is marked sent at `now`.
   */
  lemma SettleDelivered(doc: ReminderDoc, now: Instant)
    requires Eligible(doc, now)
    ensures var r := Settle(doc, true, now);
      var sdt := doc.scheduledDateTime.value;
      match SweepRule(doc)
      case None => r == MarkedSent(doc, now)
      case Some(rule) =>
        if Recurrence.Advances(rule) then
          var next := Recurrence.NextInstant(sdt, rule).value;
          r == Advanced(doc, next, rule) && sdt < next &&
          (r.fields.date, r.fields.time) == FormatUtc(next) &&
          r.notificationSent == Some(false) && !r.fields.completed && r.notificationSentAt.None? &&
          !Eligible(r, now)
        else r == MarkedSent(doc, now)
  {
    if SweepRule(doc).Some? {
      var rule := SweepRule(doc).value;
      Recurrence.NextKeepsClockTime(doc.scheduledDateTime.value, rule);
      if Recurrence.Advances(rule) {
        var sdt := doc.scheduledDateTime.value;
        var next := Recurrence.NextInstant(sdt, rule).value;
        assert next >= TruncateToMinute(sdt) + DayMs by {
          if rule.frequency.Weekly? {
            Recurrence.WeeklyGapLeast(Weekday(TruncateToMinute(sdt)),
                                      Recurrence.InWeek(Recurrence.DaysOrEmpty(rule)));
          }
        }
      }
    }
  }

  /** A reminder nothing was delivered for keeps `notificationSent == false` and gets a stamp. */
  lemma SettleUndelivered(doc: ReminderDoc, now: Instant)
    requires Eligible(doc, now)
    ensures Settle(doc, false, now) == doc.(notificationLastAttemptAt := Some(now))
    ensures Eligible(Settle(doc, false, now), now)
  {
  }

  /** The gateway's answer for the push of reminder `id` to user `userId`. */
  function ResultsFor(gateway: (UserId, string, Token) -> TokenResult, userId: UserId, id: string)
    : Token -> TokenResult
  {
    t => gateway(userId, id, t)
  }

  /**
   * The user document after the push for reminder `id` went out without throwing: the tokens
   * `sendFCMNotification` pruned, and the reminder settled by whether any token took the push.
   */
  function Processed(user: UserDoc, userId: UserId, id: string, now: Instant,
                     gateway: (UserId, string, Token) -> TokenResult): UserDoc
    requires id in user.reminders
  {
    var results := ResultsFor(gateway, userId, id);
    var tokens := UsableTokens(user.fcmTokens);
    var invalid := InvalidTokensOf(tokens, results);
    user.(fcmTokens := RemoveAll(user.fcmTokens, invalid),
          lastTokenUpdate := (if invalid == [] then user.lastTokenUpdate else Some(now)),
          reminders := user.reminders[id := Settle(user.reminders[id], CountDelivered(tokens, results) > 0, now)])
  }

  /**
   * One iteration of the sweep's inner loop: send the push for reminder `id`, then record the
   * outcome. `crashes(userId, id)` says the send throws before writing anything; the `catch`
   * swallows it.
   */
  method ProcessReminder(user: UserDoc, userId: UserId, id: string, now: Instant,
                         gateway: (UserId, string, Token) -> TokenResult,
                         crashes: (UserId, string) -> bool)
    returns (after: UserDoc)
    requires id in user.reminders
    ensures after == if crashes(userId, id) then user else Processed(user, userId, id, now, gateway)
  {
    if crashes(userId, id) {
      return user;
    }
    var doc := user.reminders[id];
    var sendResult, updated, _ := SendFcmNotification(user, ResultsFor(gateway, userId, id), now);
    var delivered := sendResult.Some? && sendResult.value.successCount > 0;
    assert delivered <==> CountDelivered(UsableTokens(user.fcmTokens), ResultsFor(gateway, userId, id)) > 0;
    var settled := SettleReminder(doc, delivered, now);
    after := updated.(reminders := updated.reminders[id := settled]);
  }

  /**
   * The outcome branches for one reminder after its push: advance a recurring reminder that has a
   * next occurrence, mark any other delivered one sent, and stamp the attempt when nothing was
   * delivered. The rule is normalised once on load and again before use.
   */
  method SettleReminder(doc: ReminderDoc, delivered: bool, now: Instant) returns (settled: ReminderDoc)
    ensures settled == Settle(doc, delivered, now)
  {
    if !delivered {
      return AttemptRecorded(doc, now);
    }
    var reminder := doc.fields.(recurrence := Recurrence.Normalize(doc.fields.recurrence));
    var recurrence := Recurrence.Normalize(reminder.recurrence);
    settled := MarkedSent(doc, now);
    if recurrence.Some? {
      var next := Recurrence.ComputeNextOccurrence(BaseDate(doc), recurrence);
      if next.Some? {
        settled := if next.value.InvalidDate? then doc else Advanced(doc, next.value.t, recurrence.value);
      }
    }
  }

  /** The reminders the sweep's query returns for one user. */
  function DueIds(user: UserDoc, now: Instant): set<string> {
    set id | id in user.reminders && Eligible(user.reminders[id], now)
  }

  /**
   * The usable tokens of `user` that the pushes of the reminders `ids` get an invalid-token code
   * for; the sweep removes exactly these.
   */
  ghost function PrunedBy(user: UserDoc, userId: UserId, ids: set<string>,
                          gateway: (UserId, string, Token) -> TokenResult,
                          crashes: (UserId, string) -> bool): set<Token>
  {
    set t | t in user.fcmTokens && IsUsableToken(t) &&
      exists id :: id in ids && !crashes(userId, id) && IsInvalidTokenResult(gateway(userId, id, t))
  }

  /**
   * How the sweep left reminder `id` of `before` in `after`, when its send did not crash: settled
   * as delivered or as undelivered; undelivered when no token of the user takes the push; and
   * delivered when a usable token that is never pruned takes it.
   */
  ghost predicate SettledReminder(before: UserDoc, after: UserDoc, userId: UserId, id: string, now: Instant,
                                  gateway: (UserId, string, Token) -> TokenResult, pruned: set<Token>)
    requires id in before.reminders && id in after.reminders
  {
    var doc, r := before.reminders[id], after.reminders[id];
    (r == Settle(doc, true, now) || r == Settle(doc, false, now)) &&
    ((forall t :: t in before.fcmTokens ==> !gateway(userId, id, t).Delivered?) ==>
      r == Settle(doc, false, now)) &&
    ((exists t :: t in before.fcmTokens && IsUsableToken(t) && gateway(userId, id, t).Delivered? && t !in pruned) ==>
      r == Settle(doc, true, now))
  }

  /** The document keeps its shape, and the reminders outside `done` are untouched. */
  ghost predicate ShapeKept(user: UserDoc, after: UserDoc, done: set<string>) {
    done <= user.reminders.Keys &&
    after.present == user.present && after.reminders.Keys == user.reminders.Keys &&
    forall id :: id in user.reminders && id !in done ==> after.reminders[id] == user.reminders[id]
  }

  /** The token list is the original pruned by `pruned`, stamped when anything was pruned. */
  ghost predicate TokensPruned(user: UserDoc, after: UserDoc, pruned: set<Token>, now: Instant) {
    after.fcmTokens == Prune(user.fcmTokens, pruned) &&
    after.lastTokenUpdate == (if pruned == {} then user.lastTokenUpdate else Some(now))
  }

  /** Each reminder of `done` is as it was when its send crashed, and settled otherwise. */
  ghost predicate RemindersSettled(user: UserDoc, after: UserDoc, userId: UserId, done: set<string>, now: Instant,
                                   gateway: (UserId, string, Token) -> TokenResult,
                                   crashes: (UserId, string) -> bool, pruned: set<Token>)
  {
    forall id :: id in done ==>
      id in user.reminders && id in after.reminders &&
      (crashes(userId, id) ==> after.reminders[id] == user.reminders[id]) &&
      (!crashes(userId, id) ==> SettledReminder(user, after, userId, id, now, gateway, pruned))
  }

  /** What the inner loop has established once the reminders `done` are handled. */
  ghost predicate HandledSoFar(user: UserDoc, after: UserDoc, userId: UserId, done: set<string>, now: Instant,
                               gateway: (UserId, string, Token) -> TokenResult,
                               crashes: (UserId, string) -> bool)
  {
    var pruned := PrunedBy(user, userId, done, gateway, crashes);
    ShapeKept(user, after, done) && TokensPruned(user, after, pruned, now) &&
    RemindersSettled(user, after, userId, done, now, gateway, crashes, pruned)
  }

  /**
   * What the sweep does to one user document: of the reminders the query returns, one whose send
   * crashed is left as it was and every other one is settled; no other reminder changes; and
   * exactly the usable tokens some push reported invalid are pruned, with a fresh token stamp when
   * there are any.
   */
  ghost predicate SweptUser(before: UserDoc, after: UserDoc, userId: UserId, now: Instant,
                            gateway: (UserId, string, Token) -> TokenResult,
                            crashes: (UserId, string) -> bool)
  {
    HandledSoFar(before, after, userId, DueIds(before, now), now, gateway, crashes)
  }

  /** The sweep's inner loop over the due reminders of one user, in the order the query gives. */
  method SweepUser(user: UserDoc, userId: UserId, now: Instant,
                   gateway: (UserId, string, Token) -> TokenResult,
                   crashes: (UserId, string) -> bool)
    returns (after: UserDoc)
    ensures SweptUser(user, after, userId, now, gateway, crashes)
  {
    var due := DueIds(user, now);
    var remaining := due;
    ghost var done: set<string> := {};
    after := user;
    HandledNothing(user, userId, now, gateway, crashes);
    while remaining != {}
      invariant remaining + done == due && remaining !! done
      invariant HandledSoFar(user, after, userId, done, now, gateway, crashes)
      decreases remaining
    {
      var id :| id in remaining;
      after := SweepStep(user, after, userId, id, done, now, gateway, crashes);
      remaining := remaining - {id};
      done := done + {id};
    }
  }

  /** One pass of the inner loop: reminder `id` is handled and the loop's invariant kept. */
  method SweepStep(user: UserDoc, before: UserDoc, userId: UserId, id: string, ghost done: set<string>,
                   now: Instant, gateway: (UserId, string, Token) -> TokenResult,
                   crashes: (UserId, string) -> bool)
    returns (after: UserDoc)
    requires id in user.reminders && id !in done
    requires HandledSoFar(user, before, userId, done, now, gateway, crashes)
    ensures HandledSoFar(user, after, userId, done + {id}, now, gateway, crashes)
  {
    after := ProcessReminder(before, userId, id, now, gateway, crashes);
    StepKeepsHandled(user, before, after, userId, id, done, now, gateway, crashes);
  }

  /** Before the loop nothing is handled and nothing is pruned. */
  lemma HandledNothing(user: UserDoc, userId: UserId, now: Instant,
                       gateway: (UserId, string, Token) -> TokenResult,
                       crashes: (UserId, string) -> bool)
    ensures HandledSoFar(user, user, userId, {}, now, gateway, crashes)
  {
    assert PrunedBy(user, userId, {}, gateway, crashes) == {};
    PruneNothing(user.fcmTokens, {});
  }

  /** Handling one more reminder keeps what the inner loop has established. */
  lemma StepKeepsHandled(user: UserDoc, before: UserDoc, after: UserDoc, userId: UserId, id: string,
                         done: set<string>, now: Instant,
                         gateway: (UserId, string, Token) -> TokenResult,
                         crashes: (UserId, string) -> bool)
    requires id in user.reminders && id !in done
    requires HandledSoFar(user, before, userId, done, now, gateway, crashes)
    requires after == if crashes(userId, id) then before else Processed(before, userId, id, now, gateway)
    ensures HandledSoFar(user, after, userId, done + {id}, now, gateway, crashes)
  {
    if crashes(userId, id) {
      PrunedByCrashed(user, userId, id, done, gateway, crashes);
    } else {
      StepProcessed(user, before, userId, id, done, now, gateway, crashes);
    }
  }

  /** A push that crashed prunes nothing. */
  lemma PrunedByCrashed(user: UserDoc, userId: UserId, id: string, done: set<string>,
                        gateway: (UserId, string, Token) -> TokenResult,
                        crashes: (UserId, string) -> bool)
    requires crashes(userId, id)
    ensures PrunedBy(user, userId, done + {id}, gateway, crashes) == PrunedBy(user, userId, done, gateway, crashes)
  {
  }

  lemma StepProcessed(user: UserDoc, before: UserDoc, userId: UserId, id: string,
                      done: set<string>, now: Instant,
                      gateway: (UserId, string, Token) -> TokenResult,
                      crashes: (UserId, string) -> bool)
    requires id in user.reminders && id !in done && !crashes(userId, id)
    requires HandledSoFar(user, before, userId, done, now, gateway, crashes)
    ensures HandledSoFar(user, Processed(before, userId, id, now, gateway), userId, done + {id}, now, gateway, crashes)
  {
    var after := Processed(before, userId, id, now, gateway);
    var p0 := PrunedBy(user, userId, done, gateway, crashes);
    var p := PrunedBy(user, userId, done + {id}, gateway, crashes);
    assert after.reminders == before.reminders[id := after.reminders[id]];
    StepTokens(user, before, userId, id, done, now, gateway, crashes);
    StepSettles(user, before, userId, id, done, now, gateway, crashes);
    StepKeepsSettled(user, before, after, userId, id, done, now, gateway, crashes, p0, p);
  }

  /** The reminders handled earlier stay settled, the tokens pruned since then notwithstanding. */
  lemma StepKeepsSettled(user: UserDoc, before: UserDoc, after: UserDoc, userId: UserId, id: string,
                         done: set<string>, now: Instant,
                         gateway: (UserId, string, Token) -> TokenResult,
                         crashes: (UserId, string) -> bool, p0: set<Token>, p: set<Token>)
    requires id !in done && id in after.reminders
    requires after.reminders == before.reminders[id := after.reminders[id]]
    requires p0 <= p
    requires RemindersSettled(user, before, userId, done, now, gateway, crashes, p0)
    ensures RemindersSettled(user, after, userId, done, now, gateway, crashes, p)
  {
    forall i | i in done && !crashes(userId, i)
      ensures SettledReminder(user, after, userId, i, now, gateway, p)
    {
      SettledGrows(user, before, after, userId, i, now, gateway, p0, p);
    }
  }

  /** A reminder's settlement survives later passes, which leave it alone and only prune more. */
  lemma SettledGrows(user: UserDoc, before: UserDoc, after: UserDoc, userId: UserId, id: string, now: Instant,
                     gateway: (UserId, string, Token) -> TokenResult, p0: set<Token>, p: set<Token>)
    requires id in user.reminders && id in before.reminders && id in after.reminders
    requires after.reminders[id] == before.reminders[id] && p0 <= p
    requires SettledReminder(user, before, userId, id, now, gateway, p0)
    ensures SettledReminder(user, after, userId, id, now, gateway, p)
  {
  }

  /** After one more reminder, the token list is the original pruned by one more set. */
  lemma StepTokens(user: UserDoc, before: UserDoc, userId: UserId, id: string,
                   done: set<string>, now: Instant,
                   gateway: (UserId, string, Token) -> TokenResult,
                   crashes: (UserId, string) -> bool)
    requires id in before.reminders && !crashes(userId, id)
    requires TokensPruned(user, before, PrunedBy(user, userId, done, gateway, crashes), now)
    ensures TokensPruned(user, Processed(before, userId, id, now, gateway),
                         PrunedBy(user, userId, done + {id}, gateway, crashes), now)
    ensures PrunedBy(user, userId, done, gateway, crashes) <= PrunedBy(user, userId, done + {id}, gateway, crashes)
  {
    var p0 := PrunedBy(user, userId, done, gateway, crashes);
    var p := PrunedBy(user, userId, done + {id}, gateway, crashes);
    var invalid := InvalidTokensOf(UsableTokens(before.fcmTokens), ResultsFor(gateway, userId, id));
    var added := set t | t in invalid;
    PrunedByStep(user, before, userId, id, done, gateway, crashes, added);
    RemoveAllIsPrune(before.fcmTokens, invalid, added);
    PruneTwice(user.fcmTokens, p0, added, p);
    assert invalid == [] <==> p == p0 by {
      if invalid != [] {
        assert invalid[0] in invalid;
      }
      if p != p0 {
        var t :| t in p && t !in p0;
      }
    }
  }

  /** The tokens pruned after one more push: the earlier ones and that push's invalid ones. */
  lemma PrunedByStep(user: UserDoc, before: UserDoc, userId: UserId, id: string, done: set<string>,
                     gateway: (UserId, string, Token) -> TokenResult,
                     crashes: (UserId, string) -> bool, added: set<Token>)
    requires !crashes(userId, id)
    requires before.fcmTokens == Prune(user.fcmTokens, PrunedBy(user, userId, done, gateway, crashes))
    requires added == set t | t in InvalidTokensOf(UsableTokens(before.fcmTokens), ResultsFor(gateway, userId, id))
    ensures PrunedBy(user, userId, done, gateway, crashes) <= PrunedBy(user, userId, done + {id}, gateway, crashes)
    ensures forall t :: t in before.fcmTokens ==> (t in added <==> t in PrunedBy(user, userId, done + {id}, gateway, crashes))
    ensures forall t :: t in user.fcmTokens ==>
      (t in PrunedBy(user, userId, done + {id}, gateway, crashes) <==>
       t in PrunedBy(user, userId, done, gateway, crashes) || t in added)
  {
    var p0 := PrunedBy(user, userId, done, gateway, crashes);
    var p := PrunedBy(user, userId, done + {id}, gateway, crashes);
    var results := ResultsFor(gateway, userId, id);
    forall t | t in user.fcmTokens ensures (t in p <==> t in p0 || t in added) {
      if t in p && t !in p0 {
        var j :| j in done + {id} && !crashes(userId, j) && IsInvalidTokenResult(gateway(userId, j, t));
        assert j == id;
        assert results(t) == gateway(userId, id, t);
      }
      if t in added {
        assert results(t) == gateway(userId, id, t);
      }
    }
  }

  /** The reminder just handled is settled as the sweep describes. */
  lemma StepSettles(user: UserDoc, before: UserDoc, userId: UserId, id: string,
                    done: set<string>, now: Instant,
                    gateway: (UserId, string, Token) -> TokenResult,
                    crashes: (UserId, string) -> bool)
    requires id in user.reminders && !crashes(userId, id)
    requires before.reminders.Keys == user.reminders.Keys && before.reminders[id] == user.reminders[id]
    requires before.fcmTokens == Prune(user.fcmTokens, PrunedBy(user, userId, done, gateway, crashes))
    ensures SettledReminder(user, Processed(before, userId, id, now, gateway), userId, id, now, gateway,
                            PrunedBy(user, userId, done + {id}, gateway, crashes))
  {
    var p0 := PrunedBy(user, userId, done, gateway, crashes);
    var p := PrunedBy(user, userId, done + {id}, gateway, crashes);
    var results := ResultsFor(gateway, userId, id);
    var tokens := UsableTokens(before.fcmTokens);
    CountDeliveredPositive(tokens, results);
    if exists t :: t in user.fcmTokens && IsUsableToken(t) && gateway(userId, id, t).Delivered? && t !in p {
      var t :| t in user.fcmTokens && IsUsableToken(t) && gateway(userId, id, t).Delivered? && t !in p;
      assert t !in p0;
      assert t in tokens && results(t).Delivered?;
    }
    if forall t :: t in user.fcmTokens ==> !gateway(userId, id, t).Delivered? {
      forall t | t in tokens ensures !results(t).Delivered? {
        assert t in user.fcmTokens;
      }
    }
  }

  /**
   * `sendScheduledNotifications`: every user document that exists is swept as `SweptUser`
   * describes; a user whose document does not exist (only its `reminders` subcollection does) is
   * not visited.
   */
  method Sweep(store: Store, now: Instant,
               gateway: (UserId, string, Token) -> TokenResult,
               crashes: (UserId, string) -> bool)
    returns (after: Store)
    ensures after.Keys == store.Keys
    ensures forall u :: u in store && !store[u].present ==> after[u] == store[u]
    ensures forall u :: u in store && store[u].present ==> SweptUser(store[u], after[u], u, now, gateway, crashes)
  {
    var users := set u | u in store && store[u].present;
    var remaining := users;
    after := store;
    while remaining != {}
      invariant remaining <= users
      invariant after.Keys == store.Keys
      invariant forall u :: u in store && (u in remaining || !store[u].present) ==> after[u] == store[u]
      invariant forall u :: u in users && u !in remaining ==> SweptUser(store[u], after[u], u, now, gateway, crashes)
      decreases remaining
    {
      var userId :| userId in remaining;
      var swept := SweepUser(after[userId], userId, now, gateway, crashes);
      after := after[userId := swept];
      remaining := remaining - {userId};
    }
  }
}
