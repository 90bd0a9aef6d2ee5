/** The try-on endpoint of app/api/tryon/route.ts. `Post` runs the guard chain
    (session, cooldown, quota, images, size), stores both photos, creates the
    job in PROCESSING and answers at once; `Complete` is the detached
    background task, run here as one atomic step at a later time, which calls
    the generator, stores the result and finishes the job. */
module TryOnRoute {
  import opened Base
  import opened Records
  import opened Quota
  import opened RateLimit
  import opened Storage
  import opened Pixazo

  const COOLDOWN_MS: int := 30000
  const MAX_IMAGE_BYTES: nat := 10 * 1024 * 1024
  const EXPIRY_MS: int := 7 * DAY_MS
  const PREMIUM_RESOLUTION := "1024x1024"
  const FREE_RESOLUTION := "768x768"
  const AI_PROVIDER := "pixazo-kolors-vton"

  const BOTH_IMAGES_REQUIRED := "Both images are required"
  const IMAGES_TOO_LARGE := "Images must be under 10MB"
  const INTERNAL_ERROR := "Internal server error"
  const GENERATION_FAILED := "AI generation failed"
  const WATERMARKED_NAME := "watermarked.jpg"

  /** An uploaded form file. */
  datatype ImageFile = ImageFile(name: string, size: nat)

  /** The answer of `POST /api/tryon`. */
  datatype PostResponse =
    | Unauthorized
    | Cooldown
    | QuotaExceeded(reason: Option<string>, remaining: Remaining, plan: Plan)
    | BadRequest(message: string)
    | ServerError(message: string)
    | Started(tryOnId: TryOnId)

  function HttpStatus(r: PostResponse): nat
  {
    match r
    case Unauthorized => 401
    case Cooldown => 429
    case QuotaExceeded(_, _, _) => 403
    case BadRequest(_) => 400
    case ServerError(_) => 500
    case Started(_) => 200
  }

  /** What the storage service does with the two photo uploads: the random
      name parts it is given and the error it reports, if any. */
  datatype PhotoUploads = PhotoUploads(
    origin: string, personRandom: string, clothRandom: string,
    personError: Option<string>, clothError: Option<string>)

  /** What the result upload meets: the watermarking error, the error fetching
      the provider's image, and the storage service's error, if any. */
  datatype ResultUpload = ResultUpload(
    timestamp: nat, randomId: string, origin: string,
    watermarkError: Option<string>, fetchError: Option<string>, uploadError: Option<string>)

  /** What the background task carries over from the request. */
  datatype Background = Background(
    jobId: TryOnId, userId: UserId, personUrl: string, clothUrl: string,
    resolution: string, hasWatermark: bool, snapshot: Option<User>)

  /** `dbUser?.isPremium`: an absent row counts as not premium. */
  predicate SnapshotPremium(snapshot: Option<User>)
  {
    snapshot.Some? && snapshot.value.isPremium
  }

  function SnapshotPlan(snapshot: Option<User>): Option<Plan>
  {
    if snapshot.Some? then Some(snapshot.value.plan) else None
  }

  /** The job as created: PROCESSING, with resolution and watermark frozen from the snapshot. */
  function NewJob(id: TryOnId, userId: UserId, personUrl: string, clothUrl: string, snapshot: Option<User>, now: int): (j: TryOn)
    ensures j.id == id && j.userId == userId && j.inputPhoto == personUrl && j.clothPhoto == clothUrl
    ensures j.status == PROCESSING && j.aiProvider == AI_PROVIDER && j.createdAt == now
    ensures j.hasWatermark <==> !SnapshotPremium(snapshot)
    ensures j.resolution == PREMIUM_RESOLUTION <==> SnapshotPremium(snapshot)
    ensures j.resolution == FREE_RESOLUTION <==> !SnapshotPremium(snapshot)
    ensures j.resultPhoto.None? && j.processingTime.None? && j.aiCost.None? && j.errorMessage.None? && j.expiresAt.None?
  {
    var premium := snapshot.Some? && snapshot.value.isPremium;
    TryOn(id, userId, personUrl, clothUrl, None, PROCESSING,
          if premium then "1024x1024" else "768x768", !premium, "pixazo-kolors-vton",
          None, None, None, None, now)
  }

  /** The two uploads run together; if both fail, the person photo's error is the one reported. */
  function UploadPhotos(userId: UserId, person: ImageFile, cloth: ImageFile, up: PhotoUploads, now: nat): (r: Result<(string, string), string>)
    ensures r.Ok? <==> up.personError.None? && up.clothError.None?
    ensures r.Ok? ==>
      && Upload(FileSource(person.name), userId, Person, now, up.personRandom, up.origin, None, None) == Ok(r.value.0)
      && Upload(FileSource(cloth.name), userId, Cloth, now, up.clothRandom, up.origin, None, None) == Ok(r.value.1)
  {
    var p := Upload(FileSource(person.name), userId, Person, now, up.personRandom, up.origin, None, up.personError);
    var c := Upload(FileSource(cloth.name), userId, Cloth, now, up.clothRandom, up.origin, None, up.clothError);
    if p.Err? then Err(p.error)
    else if c.Err? then Err(c.error)
    else Ok((p.value, c.value))
  }

  /** The answer once the quota check has let the request through: the image checks, then the uploads. */
  function RespondToImages(uid: UserId, person: Option<ImageFile>, cloth: Option<ImageFile>, up: PhotoUploads,
                           freshId: TryOnId, now: nat): (r: PostResponse)
    ensures r.Started? ==>
      && r.tryOnId == freshId && person.Some? && cloth.Some?
      && person.value.size <= MAX_IMAGE_BYTES && cloth.value.size <= MAX_IMAGE_BYTES
      && UploadPhotos(uid, person.value, cloth.value, up, now).Ok?
    ensures r.BadRequest? || r.ServerError? || r.Started?
    ensures person.None? || cloth.None? ==> r == BadRequest(BOTH_IMAGES_REQUIRED)
    ensures person.Some? && cloth.Some? && (person.value.size > MAX_IMAGE_BYTES || cloth.value.size > MAX_IMAGE_BYTES) ==>
      r == BadRequest(IMAGES_TOO_LARGE)
    ensures person.Some? && cloth.Some? && person.value.size <= MAX_IMAGE_BYTES && cloth.value.size <= MAX_IMAGE_BYTES ==>
      var uploads := UploadPhotos(uid, person.value, cloth.value, up, now);
      && (uploads.Err? ==> r == ServerError(MessageOr(uploads.error, INTERNAL_ERROR)))
      && (uploads.Ok? ==> r == Started(freshId))
  {
    if person.None? || cloth.None? then BadRequest(BOTH_IMAGES_REQUIRED)
    else if person.value.size > MAX_IMAGE_BYTES || cloth.value.size > MAX_IMAGE_BYTES then BadRequest(IMAGES_TOO_LARGE)
    else match UploadPhotos(uid, person.value, cloth.value, up, now)
      case Err(m) => ServerError(MessageOr(m, INTERNAL_ERROR))
      case Ok(_) => Started(freshId)
  }

  /** The response to a request, in terms of the state before it. */
  function Respond(users: map<UserId, User>, cache: map<string, int>, authUser: Option<UserId>,
                   person: Option<ImageFile>, cloth: Option<ImageFile>, up: PhotoUploads,
                   freshId: TryOnId, now: nat): (r: PostResponse)
    ensures r == Unauthorized <==> authUser.None?
    ensures r == Cooldown <==> authUser.Some? && !Admits(cache, authUser.value, COOLDOWN_MS, now)
    ensures r.QuotaExceeded? ==> authUser.value in users && !CheckAnswer(users[authUser.value], now).canUse
    ensures r.BadRequest? ==> authUser.value in users && CheckAnswer(users[authUser.value], now).canUse
    ensures r.Started? ==>
      && authUser.Some? && Admits(cache, authUser.value, COOLDOWN_MS, now)
      && authUser.value in users && CheckAnswer(users[authUser.value], now).canUse
      && r == RespondToImages(authUser.value, person, cloth, up, freshId, now)
    ensures authUser.Some? && Admits(cache, authUser.value, COOLDOWN_MS, now) && authUser.value !in users ==>
      r == ServerError(USER_NOT_FOUND)
    ensures authUser.Some? && Admits(cache, authUser.value, COOLDOWN_MS, now) && authUser.value in users ==>
      var q := CheckAnswer(users[authUser.value], now);
      && (!q.canUse ==> r == QuotaExceeded(q.reason, q.remaining, q.plan))
      && (q.canUse ==> r == RespondToImages(authUser.value, person, cloth, up, freshId, now))
  {
    if authUser.None? then Unauthorized
    else
      var uid := authUser.value;
      if !Admits(cache, uid, EffectiveInterval(Some(COOLDOWN_MS)), now) then Cooldown
      else if uid !in users then ServerError(USER_NOT_FOUND)
      else
        var q := CheckAnswer(users[uid], now);
        if !q.canUse then QuotaExceeded(q.reason, q.remaining, q.plan)
        else RespondToImages(uid, person, cloth, up, freshId, now)
  }

  /** The user table after a request: only the quota check writes it, and
      only once the session and the cooldown have let the request through. */
  function UsersAfterPost(users: map<UserId, User>, cache: map<string, int>, authUser: Option<UserId>, now: int): (r: map<UserId, User>)
    ensures r.Keys == users.Keys
    ensures forall id :: id in users && authUser != Some(id) ==> r[id] == users[id]
  {
    if authUser.Some? && Admits(cache, authUser.value, COOLDOWN_MS, now) && authUser.value in users
    then users[authUser.value := AfterCheck(users[authUser.value], now)]
    else users
  }

  /** The part of the handler after the quota check: image checks, the two
      uploads, the read of the user row and the job creation. */
  method StartJob(db: Database, uid: UserId, person: Option<ImageFile>, cloth: Option<ImageFile>,
                  up: PhotoUploads, freshId: TryOnId, now: nat)
    returns (resp: PostResponse, task: Option<Background>)
    requires db.Valid() && freshId !in db.tryOns
    modifies db`tryOns
    ensures db.Valid()
    ensures resp == RespondToImages(uid, person, cloth, up, freshId, now)
    ensures !resp.Started? ==> task.None? && db.tryOns == old(db.tryOns)
    ensures resp.Started? ==>
      var dbUser := if uid in db.users then Some(db.users[uid]) else None;
      var urls := UploadPhotos(uid, person.value, cloth.value, up, now).value;
      var job := NewJob(freshId, uid, urls.0, urls.1, dbUser, now);
      && db.tryOns == old(db.tryOns)[freshId := job]
      && task == Some(Background(freshId, uid, urls.0, urls.1, job.resolution, job.hasWatermark, dbUser))
  {
    if person.None? || cloth.None? {
      return BadRequest(BOTH_IMAGES_REQUIRED), None;
    }
    if person.value.size > 10 * 1024 * 1024 || cloth.value.size > 10 * 1024 * 1024 {
      return BadRequest(IMAGES_TOO_LARGE), None;
    }
    var uploads := UploadPhotos(uid, person.value, cloth.value, up, now);
    if uploads.Err? {
      return ServerError(MessageOr(uploads.error, INTERNAL_ERROR)), None;
    }
    var (personUrl, clothUrl) := uploads.value;
    var dbUser := if uid in db.users then Some(db.users[uid]) else None;
    var job := NewJob(freshId, uid, personUrl, clothUrl, dbUser, now);
    db.CreateTryOn(job);
    task := Some(Background(freshId, uid, personUrl, clothUrl, job.resolution, job.hasWatermark, dbUser));
    resp := Started(freshId);
  }

  /** `POST /api/tryon` at time `now`. `freshId` is the id the database gives the new job. */
  method Post(db: Database, limiter: RateLimiter, authUser: Option<UserId>,
              person: Option<ImageFile>, cloth: Option<ImageFile>, up: PhotoUploads,
              freshId: TryOnId, now: nat)
    returns (resp: PostResponse, task: Option<Background>)
    requires db.Valid() && freshId !in db.tryOns
    modifies db`users, db`tryOns, limiter
    ensures db.Valid()
    ensures resp == Respond(old(db.users), old(limiter.memoryCache), authUser, person, cloth, up, freshId, now)
    ensures db.users == UsersAfterPost(old(db.users), old(limiter.memoryCache), authUser, now)
    ensures authUser.None? || !Admits(old(limiter.memoryCache), authUser.value, COOLDOWN_MS, now) ==>
      limiter.memoryCache == old(limiter.memoryCache)
    ensures authUser.Some? && Admits(old(limiter.memoryCache), authUser.value, COOLDOWN_MS, now) ==>
      limiter.memoryCache == old(limiter.memoryCache)[authUser.value := now]
    ensures !resp.Started? ==> task.None? && db.tryOns == old(db.tryOns)
    ensures resp.Started? ==>
      var uid := authUser.value;
      var snapshot := Some(AfterCheck(old(db.users)[uid], now));
      var urls := UploadPhotos(uid, person.value, cloth.value, up, now).value;
      var job := NewJob(freshId, uid, urls.0, urls.1, snapshot, now);
      && db.tryOns == old(db.tryOns)[freshId := job]
      && task == Some(Background(freshId, uid, urls.0, urls.1, job.resolution, job.hasWatermark, snapshot))
  {
    if authUser.None? {
      return Unauthorized, None;
    }
    var uid := authUser.value;
    var canProceed := limiter.Limit(uid, Some(30000), now);
    if !canProceed {
      return Cooldown, None;
    }
    var quotaCheck := CheckQuota(db, uid, now);
    if quotaCheck.Err? {
      return ServerError(MessageOr(quotaCheck.error, INTERNAL_ERROR)), None;
    }
    if !quotaCheck.value.canUse {
      return QuotaExceeded(quotaCheck.value.reason, quotaCheck.value.remaining, quotaCheck.value.plan), None;
    }
    resp, task := StartJob(db, uid, person, cloth, up, freshId, now);
  }

  /** The stored result image: a watermarked copy uploaded as a file for a
      watermarked job, otherwise the provider's image fetched and re-uploaded. */
  function StoreResult(userId: UserId, imageUrl: string, hasWatermark: bool, ru: ResultUpload): (r: Result<string, string>)
    ensures hasWatermark && ru.watermarkError.Some? ==> r == Err(ru.watermarkError.value)
    ensures hasWatermark && ru.watermarkError.None? ==>
      r == Upload(FileSource(WATERMARKED_NAME), userId, ResultImage, ru.timestamp, ru.randomId, ru.origin, None, ru.uploadError)
    ensures !hasWatermark ==>
      r == Upload(UrlSource(imageUrl), userId, ResultImage, ru.timestamp, ru.randomId, ru.origin, ru.fetchError, ru.uploadError)
  {
    if hasWatermark then
      if ru.watermarkError.Some? then Err(ru.watermarkError.value)
      else Upload(FileSource(WATERMARKED_NAME), userId, ResultImage, ru.timestamp, ru.randomId, ru.origin, None, ru.uploadError)
    else Upload(UrlSource(imageUrl), userId, ResultImage, ru.timestamp, ru.randomId, ru.origin, ru.fetchError, ru.uploadError)
  }

  /** The stored result URL and processing time, or the first error thrown before the SUCCESS write. */
  function FinalImage(gen: Result<Generated, string>, userId: UserId, hasWatermark: bool, ru: ResultUpload): (r: Result<(string, int), string>)
    ensures gen.Err? ==> r == Err(gen.error)
    ensures r.Ok? ==>
      (gen.Ok? && r.value.1 == gen.value.processingTime && StoreResult(userId, gen.value.imageUrl, hasWatermark, ru) == Ok(r.value.0))
  {
    match gen
    case Err(m) => Err(m)
    case Ok(g) =>
      match StoreResult(userId, g.imageUrl, hasWatermark, ru)
      case Err(m) => Err(m)
      case Ok(url) => Ok((url, g.processingTime))
  }

  /** What the background task does to the three tables it writes. */
  datatype Effect = Effect(users: map<UserId, User>, tryOns: map<TryOnId, TryOn>, newUsage: seq<Usage>)

  /** The catch block: the job is marked FAILED, keeping whatever else was written. */
  function MarkFailed(job: TryOn, message: string): (j: TryOn)
    ensures j.status == FAILED && j.errorMessage == Some(MessageOr(message, GENERATION_FAILED))
    ensures j.(status := job.status, errorMessage := job.errorMessage) == job
  {
    job.(status := FAILED, errorMessage := Some(MessageOr(message, GENERATION_FAILED)))
  }

  function FailedUsage(ctx: Background, message: string, now: int): Usage
  {
    Usage(ctx.userId, "tryon_failed", TryOnFailed(ctx.jobId, message), now)
  }

  /** The effect of the background task given the outcome of its first stage.
      A job that no longer exists makes both the SUCCESS and the FAILED
      update throw, so nothing is written. */
  function CompletionEffect(users: map<UserId, User>, tryOns: map<TryOnId, TryOn>, ctx: Background,
                            stage: Result<(string, int), string>, now: int): (e: Effect)
    ensures e.tryOns.Keys == tryOns.Keys && e.users.Keys == users.Keys
    ensures forall id :: id in tryOns && id != ctx.jobId ==> e.tryOns[id] == tryOns[id]
    ensures forall id :: id in users && id != ctx.userId ==> e.users[id] == users[id]
    ensures ctx.jobId in tryOns ==> e.tryOns[ctx.jobId].status == SUCCESS || e.tryOns[ctx.jobId].status == FAILED
    ensures |e.newUsage| <= 1
  {
    if ctx.jobId !in tryOns then Effect(users, tryOns, [])
    else
      var job := tryOns[ctx.jobId];
      match stage
      case Err(m) =>
        Effect(users, tryOns[ctx.jobId := MarkFailed(job, m)], [FailedUsage(ctx, m, now)])
      case Ok((url, seconds)) =>
        var succeeded := job.(resultPhoto := Some(url), status := SUCCESS, processingTime := Some(seconds),
                              aiCost := Some(COST_PER_GENERATION_CENTS));
        if ctx.userId !in users then
          Effect(users, tryOns[ctx.jobId := MarkFailed(succeeded, USER_NOT_FOUND)], [FailedUsage(ctx, USER_NOT_FOUND, now)])
        else
          var finished := if !SnapshotPremium(ctx.snapshot) then succeeded.(expiresAt := Some(now + EXPIRY_MS)) else succeeded;
          Effect(users[ctx.userId := Consume(users[ctx.userId])], tryOns[ctx.jobId := finished],
                 [Usage(ctx.userId, "tryon_success", TryOnSucceeded(ctx.jobId, SnapshotPlan(ctx.snapshot), ctx.resolution, seconds), now)])
  }

  /** The first stage of the background task: generation (create outcome,
      poll outcomes, start and end times), watermarking and result storage. */
  method ProduceResult(ctx: Background, create: CreateOutcome, outcomes: seq<PollOutcome>,
                       start: int, end: int, ru: ResultUpload)
    returns (stage: Result<(string, int), string>)
    requires MAX_ATTEMPTS <= |outcomes|
    ensures stage == FinalImage(Generation(create, outcomes, start, end), ctx.userId, ctx.hasWatermark, ru)
  {
    var result, _ := GenerateVirtualTryOn(create, outcomes, start, end);
    if result.Err? {
      return Err(result.error);
    }
    var finalImageUrl := StoreResult(ctx.userId, result.value.imageUrl, ctx.hasWatermark, ru);
    if finalImageUrl.Err? {
      return Err(finalImageUrl.error);
    }
    stage := Ok((finalImageUrl.value, result.value.processingTime));
  }

  /** The database writes of the background task at time `now`, given its first stage:
      the SUCCESS write, the quota decrement, the analytics event and the
      expiry, or the catch block's FAILED write and failure event. */
  method RecordOutcome(db: Database, ctx: Background, stage: Result<(string, int), string>, now: int)
    requires db.Valid()
    modifies db`users, db`tryOns, db`usage
    ensures db.Valid()
    ensures var e := CompletionEffect(old(db.users), old(db.tryOns), ctx, stage, now);
      db.users == e.users && db.tryOns == e.tryOns && db.usage == old(db.usage) + e.newUsage
  {
    if ctx.jobId !in db.tryOns {
      return;
    }
    var message: string;
    if stage.Ok? {
      var (finalImageUrl, seconds) := stage.value;
      var job := db.tryOns[ctx.jobId];
      db.UpdateTryOn(job.(resultPhoto := Some(finalImageUrl), status := SUCCESS, processingTime := Some(seconds),
                          aiCost := Some(COST_PER_GENERATION_CENTS)));
      var decremented := DecrementQuota(db, ctx.userId);
      if decremented.Ok? {
        db.RecordUsage(Usage(ctx.userId, "tryon_success",
                             TryOnSucceeded(ctx.jobId, SnapshotPlan(ctx.snapshot), ctx.resolution, seconds), now));
        if !SnapshotPremium(ctx.snapshot) {
          db.UpdateTryOn(db.tryOns[ctx.jobId].(expiresAt := Some(now + 7 * DAY_MS)));
        }
        return;
      }
      message := decremented.error;
    } else {
      message := stage.error;
    }
    db.UpdateTryOn(db.tryOns[ctx.jobId].(status := FAILED, errorMessage := Some(MessageOr(message, "AI generation failed"))));
    db.RecordUsage(Usage(ctx.userId, "tryon_failed", TryOnFailed(ctx.jobId, message), now));
  }

  /** The background task, run as one step at time `now`. */
  method Complete(db: Database, ctx: Background, create: CreateOutcome, outcomes: seq<PollOutcome>,
                  start: int, end: int, ru: ResultUpload, now: int)
    requires db.Valid() && MAX_ATTEMPTS <= |outcomes|
    modifies db`users, db`tryOns, db`usage
    ensures db.Valid()
    ensures
      var e := CompletionEffect(old(db.users), old(db.tryOns), ctx,
                                FinalImage(Generation(create, outcomes, start, end), ctx.userId, ctx.hasWatermark, ru), now);
      db.users == e.users && db.tryOns == e.tryOns && db.usage == old(db.usage) + e.newUsage
  {
    var stage := ProduceResult(ctx, create, outcomes, start, end, ru);
    RecordOutcome(db, ctx, stage, now);
  }

  // ---- properties of the job lifecycle ----

  /** Only the job of the task is touched; every other job is left as it was. */
  lemma OtherJobsUntouched(users: map<UserId, User>, tryOns: map<TryOnId, TryOn>, ctx: Background,
                           stage: Result<(string, int), string>, now: int, other: TryOnId)
    requires other != ctx.jobId
    ensures var e := CompletionEffect(users, tryOns, ctx, stage, now);
      (other in e.tryOns <==> other in tryOns) && (other in tryOns ==> e.tryOns[other] == tryOns[other])
  {
  }

  /** Quota is consumed only together with a SUCCESS write of the stored
      result, and then by exactly one unit on the owner's row. */
  lemma QuotaConsumedOnlyOnSuccess(users: map<UserId, User>, tryOns: map<TryOnId, TryOn>, ctx: Background,
                                   stage: Result<(string, int), string>, now: int)
    ensures var e := CompletionEffect(users, tryOns, ctx, stage, now);
      e.users != users ==>
        && stage.Ok? && ctx.jobId in tryOns && ctx.userId in users
        && e.users == users[ctx.userId := Consume(users[ctx.userId])]
        && e.tryOns[ctx.jobId].status == SUCCESS && e.tryOns[ctx.jobId].resultPhoto == Some(stage.value.0)
    ensures stage.Err? ==> CompletionEffect(users, tryOns, ctx, stage, now).users == users
  {
    var e := CompletionEffect(users, tryOns, ctx, stage, now);
    if e.users != users && ctx.jobId in tryOns && stage.Ok? && ctx.userId in users {
      assert e.users == users[ctx.userId := Consume(users[ctx.userId])];
    }
  }

  /** A generation that finishes for a job and owner that both still exist
      writes the SUCCESS row (result URL, processing time, estimated cost, and
      an expiry a week on for a non-premium snapshot), consumes one unit of
      the owner's quota and logs one `tryon_success` event. */
  lemma SuccessRecorded(users: map<UserId, User>, tryOns: map<TryOnId, TryOn>, ctx: Background,
                        url: string, seconds: int, now: int)
    requires ctx.jobId in tryOns && ctx.userId in users
    ensures var e := CompletionEffect(users, tryOns, ctx, Ok((url, seconds)), now);
      var job := tryOns[ctx.jobId];
      && e.users == users[ctx.userId := Consume(users[ctx.userId])]
      && e.tryOns == tryOns[ctx.jobId := job.(resultPhoto := Some(url), status := SUCCESS, processingTime := Some(seconds),
                                              aiCost := Some(COST_PER_GENERATION_CENTS),
                                              expiresAt := if SnapshotPremium(ctx.snapshot) then job.expiresAt else Some(now + EXPIRY_MS))]
      && e.newUsage == [Usage(ctx.userId, "tryon_success", TryOnSucceeded(ctx.jobId, SnapshotPlan(ctx.snapshot), ctx.resolution, seconds), now)]
  {
  }

  /** A failure before the SUCCESS write marks the job FAILED with the error's
      message (or the generic one), stores no result and logs one failure event. */
  lemma FailureRecorded(users: map<UserId, User>, tryOns: map<TryOnId, TryOn>, ctx: Background,
                        m: string, now: int)
    requires ctx.jobId in tryOns && tryOns[ctx.jobId].resultPhoto.None?
    ensures var e := CompletionEffect(users, tryOns, ctx, Err(m), now);
      && e.tryOns[ctx.jobId].status == FAILED
      && e.tryOns[ctx.jobId].errorMessage == Some(if m == "" then GENERATION_FAILED else m)
      && e.tryOns[ctx.jobId].resultPhoto.None?
      && e.newUsage == [Usage(ctx.userId, "tryon_failed", TryOnFailed(ctx.jobId, m), now)]
  {
  }

  /** A job finished successfully expires one week after completion exactly
      when the creation-time snapshot of its owner was not premium. */
  lemma ExpiryOnlyForFreeSnapshot(users: map<UserId, User>, tryOns: map<TryOnId, TryOn>, ctx: Background,
                                  url: string, seconds: int, now: int)
    requires ctx.jobId in tryOns && ctx.userId in users && tryOns[ctx.jobId].expiresAt.None?
    ensures var e := CompletionEffect(users, tryOns, ctx, Ok((url, seconds)), now);
      && e.tryOns[ctx.jobId].status == SUCCESS
      && (e.tryOns[ctx.jobId].expiresAt.Some? <==> !SnapshotPremium(ctx.snapshot))
      && (!SnapshotPremium(ctx.snapshot) ==> e.tryOns[ctx.jobId].expiresAt == Some(now + 7 * DAY_MS))
  {
  }

  /** A throw after the SUCCESS write (here: the decrement finding no owner
      row) lands in the same catch block and turns the finished job into a
      FAILED one that still carries its result image, with no quota consumed. */
  lemma LateFailureOverwritesSuccess(users: map<UserId, User>, tryOns: map<TryOnId, TryOn>, ctx: Background,
                                     url: string, seconds: int, now: int)
    requires ctx.jobId in tryOns && ctx.userId !in users
    ensures var e := CompletionEffect(users, tryOns, ctx, Ok((url, seconds)), now);
      && e.tryOns[ctx.jobId].status == FAILED
      && e.tryOns[ctx.jobId].resultPhoto == Some(url)
      && e.tryOns[ctx.jobId].errorMessage == Some(USER_NOT_FOUND)
      && e.users == users
  {
  }

  /** A job deleted before its task finishes is not recreated, and nothing else is written. */
  lemma DeletedJobNoEffect(users: map<UserId, User>, tryOns: map<TryOnId, TryOn>, ctx: Background,
                           stage: Result<(string, int), string>, now: int)
    requires ctx.jobId !in tryOns
    ensures CompletionEffect(users, tryOns, ctx, stage, now) == Effect(users, tryOns, [])
  {
  }

  /** The watermark decision and the stored image agree: a watermarked job
      stores a re-uploaded `.jpg` file under the owner's result folder. */
  lemma WatermarkedResultPath(userId: UserId, imageUrl: string, ru: ResultUpload)
    requires ru.watermarkError.None? && ru.uploadError.None?
    ensures StoreResult(userId, imageUrl, true, ru)
      == Ok(ru.origin + PUBLIC_MARKER + ObjectPath(userId, ResultImage, ru.timestamp, ru.randomId, "jpg"))
  {
    assert Extension(FileSource(WATERMARKED_NAME)) == "jpg";
  }

  /** A request refused by the cooldown, the session or the quota creates no
      job, and a second request within 30 seconds of an admitted one is
      refused by the cooldown whatever else it carries. */
  lemma SecondRequestWithinCooldown(users: map<UserId, User>, cache: map<string, int>, uid: UserId,
                                    person: Option<ImageFile>, cloth: Option<ImageFile>, up: PhotoUploads,
                                    freshId: TryOnId, t: nat, later: nat)
    requires t != 0 && t <= later < t + COOLDOWN_MS
    ensures Respond(users, cache[uid := t], Some(uid), person, cloth, up, freshId, later) == Cooldown
  {
    RefusedWithinInterval(cache, uid, COOLDOWN_MS, t, later);
  }

  /** The quota check runs before the images are looked at: a request with a
      missing image is still answered 400 after the check's lazy writes. */
  lemma QuotaCheckedBeforeImages(users: map<UserId, User>, cache: map<string, int>, uid: UserId,
                                 cloth: Option<ImageFile>, up: PhotoUploads, freshId: TryOnId, now: nat)
    requires Admits(cache, uid, COOLDOWN_MS, now) && uid in users && CheckAnswer(users[uid], now).canUse
    ensures Respond(users, cache, Some(uid), None, cloth, up, freshId, now) == BadRequest(BOTH_IMAGES_REQUIRED)
    ensures UsersAfterPost(users, cache, Some(uid), now) == users[uid := AfterCheck(users[uid], now)]
  {
  }

  /** A premium user whose period has run out is downgraded by the check of
      the same request, so the job is created in the free resolution and watermarked. */
  lemma ExpiredPremiumJobIsWatermarked(u: User, id: TryOnId, personUrl: string, clothUrl: string, now: int)
    requires !u.isBanned && u.isPremium && PeriodExpired(u, now)
    ensures NewJob(id, u.id, personUrl, clothUrl, Some(AfterCheck(u, now)), now).hasWatermark
    ensures NewJob(id, u.id, personUrl, clothUrl, Some(AfterCheck(u, now)), now).resolution == FREE_RESOLUTION
  {
  }
}
