/**
 * The AI request pipeline of the backend controller. Every handler runs
 * gate -> delegate call -> INSERT into `creations` -> (usage increment) -> response,
 * and any exception on the way becomes a 500 response.
 *
 * The pure functions below are the specification: each takes the user's record and
 * the creations table before the request (a `Store`) and gives the state after it
 * together with the response (an `Exchange`). The class `Server` holds the same state
 * in fields and its methods, written step by step with early returns, are proved to
 * agree with them.
 */
module AiController {
  import opened Outcomes
  import opened JsString
  import PdfText

  const FreeRequestLimit: nat := 10
  const MaxResumeBytes: nat := 5 * 1024 * 1024
  const DefaultMaxTokens: int := 500
  const BlogTitleTokens: int := 100
  const ResumeReviewTokens: int := 1000

  const LimitMessage: string := "Limit reached. Upgrade your plan to continue."
  const PremiumMessage: string := "Premium feature only."
  const TooLargeMessage: string := "Resume file size exceeds 5MB."
  const NoTextMessage: string := "No readable text found in the uploaded PDF."
  const BackgroundPrompt: string := "Remove background from image"
  const ResumePrompt: string := "Review the uploaded resume"
  const ReviewInstruction: string :=
    "Review the following resume and provide constructive feedback on its strengths, weaknesses, and areas for improvement:\n\n"

  /** One row of the `creations` table (its id, likes and timestamp are the database's own). */
  datatype Creation = Creation(userId: string, prompt: string, content: string, kind: string, publish: bool)

  /** `{success: true, content}` or `{success: false, message}`. */
  datatype Body = Succeeded(content: string) | Failed(message: string)
  datatype Response = Response(status: int, body: Body)

  /** The uploaded file as the upload middleware describes it on `req.file`. */
  datatype UploadedFile = UploadedFile(path: string, size: nat)

  /** The caller's record (plan and free-usage counter) and the creations table. */
  datatype Store = Store(plan: string, freeUsage: nat, creations: seq<Creation>)

  /** The state after one request and the response sent. */
  datatype Exchange = Exchange(store: Store, response: Response)

  /**
   * The code the handlers call but which is not modelled: the chat-completion service
   * (prompt, token budget), text-to-image generation followed by the upload of its
   * result, upload with background removal, plain upload (giving a public id), URL
   * building for a transformation, PDF parsing, `decodeURIComponent`, the INSERT and
   * the write of the user's metadata. Each either returns or throws.
   */
  datatype Env = Env(
    chat: (string, int) -> Outcome<string>,
    generateImage: string -> Outcome<string>,
    uploadWithoutBackground: string -> Outcome<string>,
    upload: string -> Outcome<string>,
    transformUrl: (string, string) -> string,
    parsePdf: string -> Outcome<Option<PdfText.PdfData>>,
    decode: string -> string,
    insert: Creation -> Outcome<()>,
    setFreeUsage: nat -> Outcome<()>)

  /** Any plan value other than "premium" is the free plan. */
  predicate IsPremium(plan: string) {
    plan == "premium"
  }

  /** `checkFreeUsage`: false (and a 403) exactly for a free plan whose counter has reached the limit. */
  function CheckFreeUsage(plan: string, freeUsage: nat): bool {
    !(!IsPremium(plan) && freeUsage >= FreeRequestLimit)
  }

  const LimitReached: Response := Response(403, Failed(LimitMessage))
  const PremiumOnly: Response := Response(403, Failed(PremiumMessage))

  function Respond(content: string): Response {
    Response(200, Succeeded(content))
  }

  function ServerError(message: string): Response {
    Response(500, Failed(message))
  }

  /** The message of the TypeError thrown when the handler reads a property of a missing `req.file`. */
  function MissingFileMessage(property: string): string {
    "Cannot read properties of undefined (reading '" + property + "')"
  }

  /** The token budget of an article: the requested `length`, or the chat helper's default. */
  function MaxTokens(length: Option<int>): int {
    length.GetOr(DefaultMaxTokens)
  }

  /** The prompt sent for a resume review: the fixed instruction followed by the extracted text. */
  function ReviewPrompt(text: string): (r: string)
    ensures |r| == |ReviewInstruction| + |text|
    ensures r[..|ReviewInstruction|] == ReviewInstruction
    ensures r[|ReviewInstruction|..] == text
  {
    ReviewInstruction + text
  }

  /** `incrementUsage`: a free plan's counter is set to its request-time value plus one. */
  function IncrementedUsage(s: Store, env: Env): Outcome<Store> {
    if IsPremium(s.plan) then Returned(s)
    else match env.setFreeUsage(s.freeUsage + 1)
      case Returned(_) => Returned(s.(freeUsage := s.freeUsage + 1))
      case Threw(m) => Threw(m)
  }

  /**
   * What every handler does once its gate has passed and the delegate has answered:
   * store one row holding the delegate's output, count the request when the endpoint
   * is usage-gated, and answer with the output. The state only ever grows by that
   * one row and that one increment, the increment only after the row, and a 500
   * never comes with an increment.
   */
  function Complete(s: Store, userId: string, prompt: string, kind: string, publish: bool,
                    reply: Outcome<string>, counted: bool, env: Env): (r: Exchange)
    ensures r.store.plan == s.plan
    ensures r.response.status == 200 <==> r.response.body.Succeeded?
    ensures r.response.status == 200 || r.response.status == 500
    ensures reply.Threw? ==> r == Exchange(s, ServerError(reply.message))
    ensures reply.Returned? && env.insert(Creation(userId, prompt, reply.value, kind, publish)).Threw? ==>
              r == Exchange(s, ServerError(env.insert(Creation(userId, prompt, reply.value, kind, publish)).message))
    ensures reply.Returned? && env.insert(Creation(userId, prompt, reply.value, kind, publish)).Returned? ==>
              r.store.creations == s.creations + [Creation(userId, prompt, reply.value, kind, publish)] &&
              (!counted || IsPremium(s.plan) || env.setFreeUsage(s.freeUsage + 1).Returned? ==>
                 r.response == Respond(reply.value))
    ensures reply.Returned? && env.insert(Creation(userId, prompt, reply.value, kind, publish)).Returned? &&
            counted && !IsPremium(s.plan) && env.setFreeUsage(s.freeUsage + 1).Threw? ==>
              r == Exchange(s.(creations := s.creations + [Creation(userId, prompt, reply.value, kind, publish)]),
                            ServerError(env.setFreeUsage(s.freeUsage + 1).message))
    ensures r.response.body.Failed? && !(counted && !IsPremium(s.plan)) ==> r.store == s
    ensures r.store.creations == s.creations ||
            (reply.Returned? && r.store.creations == s.creations + [Creation(userId, prompt, reply.value, kind, publish)])
    ensures r.store.freeUsage == s.freeUsage ||
            (counted && !IsPremium(s.plan) && r.store.freeUsage == s.freeUsage + 1 && |r.store.creations| == |s.creations| + 1)
    ensures r.response.status == 500 ==> r.store.freeUsage == s.freeUsage
    ensures r.response.body.Succeeded? ==>
              reply == Returned(r.response.body.content) &&
              r.store.creations == s.creations + [Creation(userId, prompt, reply.value, kind, publish)] &&
              r.store.freeUsage == (if counted && !IsPremium(s.plan) then s.freeUsage + 1 else s.freeUsage)
  {
    match reply
    case Threw(m) => Exchange(s, ServerError(m))
    case Returned(content) =>
      var row := Creation(userId, prompt, content, kind, publish);
      match env.insert(row)
      case Threw(m) => Exchange(s, ServerError(m))
      case Returned(_) =>
        var inserted := s.(creations := s.creations + [row]);
        if !counted then Exchange(inserted, Respond(content))
        else match IncrementedUsage(inserted, env)
          case Threw(m) => Exchange(inserted, ServerError(m))
          case Returned(t) => Exchange(t, Respond(content))
  }

  /**
   * `generateArticle` and `generateBlogTitle`: 403 exactly when a free plan has used up
   * its quota, in which case nothing changes and no delegate is asked; a success adds
   * one row of the endpoint's type holding the chat output and counts the request for
   * a free plan.
   */
  function GatedStep(s: Store, userId: string, prompt: string, kind: string, tokens: int, env: Env): (r: Exchange)
    ensures r.response.status == 403 <==> !IsPremium(s.plan) && s.freeUsage >= FreeRequestLimit
    ensures r.response.status == 403 ==> r == Exchange(s, LimitReached)
    ensures r.store.plan == s.plan
    ensures r.response.body.Succeeded? ==>
              env.chat(prompt, tokens) == Returned(r.response.body.content) &&
              r.store.creations == s.creations + [Creation(userId, prompt, r.response.body.content, kind, false)] &&
              r.store.freeUsage == (if IsPremium(s.plan) then s.freeUsage else s.freeUsage + 1)
    ensures CheckFreeUsage(s.plan, s.freeUsage) && env.chat(prompt, tokens).Returned? &&
            env.insert(Creation(userId, prompt, env.chat(prompt, tokens).value, kind, false)).Returned? &&
            (IsPremium(s.plan) || env.setFreeUsage(s.freeUsage + 1).Returned?) ==>
              r.response == Respond(env.chat(prompt, tokens).value)
    ensures r.response.status == 500 ==> r.store.freeUsage == s.freeUsage
    ensures r.response.body.Failed? ==> r.store.freeUsage == s.freeUsage
    ensures IsPremium(s.plan) ==> r.store.freeUsage == s.freeUsage
  {
    if !CheckFreeUsage(s.plan, s.freeUsage) then Exchange(s, LimitReached)
    else Complete(s, userId, prompt, kind, false, env.chat(prompt, tokens), true, env)
  }

  /** `generateImage`: premium only; stores the hosted URL of the generated image with `publish ?? false`. */
  function ImageStep(s: Store, userId: string, prompt: string, publish: Option<bool>, env: Env): (r: Exchange)
    ensures !IsPremium(s.plan) ==> r == Exchange(s, PremiumOnly)
    ensures r.response.status == 403 <==> !IsPremium(s.plan)
    ensures r.store.plan == s.plan && r.store.freeUsage == s.freeUsage
    ensures r.response.body.Failed? ==> r.store == s
    ensures r.response.body.Failed? ==> r.response.status == 403 || r.response.status == 500
    ensures IsPremium(s.plan) && env.generateImage(prompt).Threw? ==>
              r == Exchange(s, ServerError(env.generateImage(prompt).message))
    ensures IsPremium(s.plan) && env.generateImage(prompt).Returned? &&
            env.insert(Creation(userId, prompt, env.generateImage(prompt).value, "image", publish.GetOr(false))).Threw? ==>
              r == Exchange(s, ServerError(env.insert(Creation(userId, prompt, env.generateImage(prompt).value, "image", publish.GetOr(false))).message))
    ensures IsPremium(s.plan) && env.generateImage(prompt).Returned? &&
            env.insert(Creation(userId, prompt, env.generateImage(prompt).value, "image", publish.GetOr(false))).Returned? ==>
              r.response == Respond(env.generateImage(prompt).value)
    ensures r.response.body.Succeeded? ==>
              env.generateImage(prompt) == Returned(r.response.body.content) &&
              r.store.creations == s.creations + [Creation(userId, prompt, r.response.body.content, "image", publish.GetOr(false))]
  {
    if !IsPremium(s.plan) then Exchange(s, PremiumOnly)
    else Complete(s, userId, prompt, "image", publish.GetOr(false), env.generateImage(prompt), false, env)
  }

  /** `removeImageBackground`: premium only; stores the hosted URL under a fixed prompt. */
  function BackgroundStep(s: Store, userId: string, image: Option<UploadedFile>, env: Env): (r: Exchange)
    ensures !IsPremium(s.plan) ==> r == Exchange(s, PremiumOnly)
    ensures r.response.status == 403 <==> !IsPremium(s.plan)
    ensures IsPremium(s.plan) && image.None? ==> r == Exchange(s, ServerError(MissingFileMessage("path")))
    ensures r.store.plan == s.plan && r.store.freeUsage == s.freeUsage
    ensures r.response.body.Failed? ==> r.store == s
    ensures r.response.body.Failed? ==> r.response.status == 403 || r.response.status == 500
    ensures IsPremium(s.plan) && image.Some? && env.uploadWithoutBackground(image.value.path).Threw? ==>
              r == Exchange(s, ServerError(env.uploadWithoutBackground(image.value.path).message))
    ensures IsPremium(s.plan) && image.Some? && env.uploadWithoutBackground(image.value.path).Returned? &&
            env.insert(Creation(userId, BackgroundPrompt, env.uploadWithoutBackground(image.value.path).value, "image", false)).Threw? ==>
              r == Exchange(s, ServerError(env.insert(Creation(userId, BackgroundPrompt, env.uploadWithoutBackground(image.value.path).value, "image", false)).message))
    ensures IsPremium(s.plan) && image.Some? && env.uploadWithoutBackground(image.value.path).Returned? &&
            env.insert(Creation(userId, BackgroundPrompt, env.uploadWithoutBackground(image.value.path).value, "image", false)).Returned? ==>
              r.response == Respond(env.uploadWithoutBackground(image.value.path).value)
    ensures r.response.body.Succeeded? ==>
              image.Some? && env.uploadWithoutBackground(image.value.path) == Returned(r.response.body.content) &&
              r.store.creations == s.creations + [Creation(userId, BackgroundPrompt, r.response.body.content, "image", false)]
  {
    if !IsPremium(s.plan) then Exchange(s, PremiumOnly)
    else if image.None? then Exchange(s, ServerError(MissingFileMessage("path")))
    else Complete(s, userId, BackgroundPrompt, "image", false, env.uploadWithoutBackground(image.value.path), false, env)
  }

  /**
   * `removeImageObject`: premium only; uploads the image and answers with the URL of
   * its generative-removal transformation. The object name is not validated here.
   */
  function ObjectStep(s: Store, userId: string, objectName: string, image: Option<UploadedFile>, env: Env): (r: Exchange)
    ensures !IsPremium(s.plan) ==> r == Exchange(s, PremiumOnly)
    ensures r.response.status == 403 <==> !IsPremium(s.plan)
    ensures IsPremium(s.plan) && image.None? ==> r == Exchange(s, ServerError(MissingFileMessage("path")))
    ensures r.store.plan == s.plan && r.store.freeUsage == s.freeUsage
    ensures r.response.body.Failed? ==> r.store == s
    ensures r.response.body.Failed? ==> r.response.status == 403 || r.response.status == 500
    ensures IsPremium(s.plan) && image.Some? && env.upload(image.value.path).Threw? ==>
              r == Exchange(s, ServerError(env.upload(image.value.path).message))
    ensures IsPremium(s.plan) && image.Some? && env.upload(image.value.path).Returned? ==>
              var url := env.transformUrl(env.upload(image.value.path).value, "gen_remove:" + objectName);
              var row := Creation(userId, "Removed " + objectName + " from image", url, "image", false);
              (env.insert(row).Threw? ==> r == Exchange(s, ServerError(env.insert(row).message))) &&
              (env.insert(row).Returned? ==> r.response == Respond(url))
    ensures r.response.body.Succeeded? ==>
              image.Some? && env.upload(image.value.path).Returned? &&
              r.response.body.content == env.transformUrl(env.upload(image.value.path).value, "gen_remove:" + objectName) &&
              r.store.creations == s.creations + [Creation(userId, "Removed " + objectName + " from image", r.response.body.content, "image", false)]
  {
    if !IsPremium(s.plan) then Exchange(s, PremiumOnly)
    else if image.None? then Exchange(s, ServerError(MissingFileMessage("path")))
    else
      var url := match env.upload(image.value.path)
        case Returned(publicId) => Returned(env.transformUrl(publicId, "gen_remove:" + objectName))
        case Threw(m) => Threw(m);
      Complete(s, userId, "Removed " + objectName + " from image", "image", false, url, false, env)
  }

  /**
   * `resumeReview`: the checks run in the order plan, file size, parse, empty text;
   * each failing check answers before the next is made and leaves the state as it
   * was. A review that succeeds was asked for with the extracted text and is stored
   * under a fixed prompt.
   */
  function ResumeStep(s: Store, userId: string, resume: Option<UploadedFile>, env: Env): (r: Exchange)
    ensures !IsPremium(s.plan) ==> r == Exchange(s, PremiumOnly)
    ensures r.response.status == 403 <==> !IsPremium(s.plan)
    ensures IsPremium(s.plan) && resume.None? ==> r == Exchange(s, ServerError(MissingFileMessage("size")))
    ensures IsPremium(s.plan) && resume.Some? && resume.value.size > MaxResumeBytes ==>
              r == Exchange(s, Response(200, Failed(TooLargeMessage)))
    ensures IsPremium(s.plan) && resume.Some? && resume.value.size <= MaxResumeBytes &&
            env.parsePdf(resume.value.path).Threw? ==>
              r == Exchange(s, ServerError(env.parsePdf(resume.value.path).message))
    ensures IsPremium(s.plan) && resume.Some? && resume.value.size <= MaxResumeBytes &&
            env.parsePdf(resume.value.path).Returned? &&
            IsBlank(PdfText.ExtractText(env.parsePdf(resume.value.path).value, env.decode)) ==>
              r == Exchange(s, Response(200, Failed(NoTextMessage)))
    ensures r.store.plan == s.plan && r.store.freeUsage == s.freeUsage
    ensures r.response.body.Failed? ==> r.store == s
    ensures r.response.status == 200 && r.response.body.Failed? ==>
              r.response.body.message == TooLargeMessage || r.response.body.message == NoTextMessage
    ensures IsPremium(s.plan) && resume.Some? && resume.value.size <= MaxResumeBytes &&
            env.parsePdf(resume.value.path).Returned? ==>
              var text := PdfText.ExtractText(env.parsePdf(resume.value.path).value, env.decode);
              var review := env.chat(ReviewPrompt(text), ResumeReviewTokens);
              !IsBlank(text) ==>
                (review.Threw? ==> r == Exchange(s, ServerError(review.message))) &&
                (review.Returned? ==>
                   var row := Creation(userId, ResumePrompt, review.value, "resume-review", false);
                   (env.insert(row).Threw? ==> r == Exchange(s, ServerError(env.insert(row).message))) &&
                   (env.insert(row).Returned? ==> r.response == Respond(review.value)))
    ensures r.response.body.Succeeded? ==>
              resume.Some? && resume.value.size <= MaxResumeBytes && env.parsePdf(resume.value.path).Returned? &&
              var text := PdfText.ExtractText(env.parsePdf(resume.value.path).value, env.decode);
              !IsBlank(text) &&
              env.chat(ReviewPrompt(text), ResumeReviewTokens) == Returned(r.response.body.content) &&
              r.store.creations == s.creations + [Creation(userId, ResumePrompt, r.response.body.content, "resume-review", false)]
  {
    if !IsPremium(s.plan) then Exchange(s, PremiumOnly)
    else if resume.None? then Exchange(s, ServerError(MissingFileMessage("size")))
    else if resume.value.size > MaxResumeBytes then Exchange(s, Response(200, Failed(TooLargeMessage)))
    else match env.parsePdf(resume.value.path)
      case Threw(m) => Exchange(s, ServerError(m))
      case Returned(pdf) =>
        var text := PdfText.ExtractText(pdf, env.decode);
        TrimEmptyIffBlank(text);
        if Trim(text) == "" then Exchange(s, Response(200, Failed(NoTextMessage)))
        else Complete(s, userId, ResumePrompt, "resume-review", false,
                      env.chat(ReviewPrompt(text), ResumeReviewTokens), false, env)
  }

  /** The two usage-gated requests. */
  datatype GatedRequest = ArticleRequest(prompt: string, length: Option<int>) | BlogTitleRequest(prompt: string)

  function Gated(s: Store, userId: string, req: GatedRequest, env: Env): Exchange {
    match req
    case ArticleRequest(prompt, length) => GatedStep(s, userId, prompt, "article", MaxTokens(length), env)
    case BlogTitleRequest(prompt) => GatedStep(s, userId, prompt, "blog-title", BlogTitleTokens, env)
  }

  /** The final state and the responses of a sequence of gated requests handled one at a time. */
  datatype Trace = Trace(store: Store, responses: seq<Response>)

  function Replay(s: Store, userId: string, reqs: seq<GatedRequest>, env: Env): (r: Trace)
    ensures |r.responses| == |reqs|
    decreases |reqs|
  {
    if reqs == [] then Trace(s, [])
    else
      var e := Gated(s, userId, reqs[0], env);
      var rest := Replay(e.store, userId, reqs[1..], env);
      Trace(rest.store, [e.response] + rest.responses)
  }

  /** The chat service, the database and the metadata store never throw. */
  ghost predicate Dependable(env: Env) {
    (forall prompt, tokens :: env.chat(prompt, tokens).Returned?) &&
    (forall row :: env.insert(row).Returned?) &&
    (forall n :: env.setFreeUsage(n).Returned?)
  }

  /** Requests a free plan still has when its counter stands at `used`. */
  function Remaining(used: nat): nat {
    if used >= FreeRequestLimit then 0 else FreeRequestLimit - used
  }

  function Min(a: nat, b: nat): nat {
    if a <= b then a else b
  }

  /** A gated request from a free plan under the limit, with services that do not fail, succeeds and counts. */
  lemma GatedRequestCounted(s: Store, userId: string, req: GatedRequest, env: Env)
    requires !IsPremium(s.plan) && s.freeUsage < FreeRequestLimit && Dependable(env)
    ensures var e := Gated(s, userId, req, env);
            e.response.body.Succeeded? && e.store.plan == s.plan &&
            e.store.freeUsage == s.freeUsage + 1 &&
            |e.store.creations| == |s.creations| + 1 && e.store.creations[..|s.creations|] == s.creations
  {
  }

  /**
   * On a free plan, with services that do not fail, the first `Remaining(used)`
   * gated requests succeed, each adding one row and one use, and every later request
   * is turned away with the quota message without changing anything.
   */
  lemma {:induction false} FreeQuota(s: Store, userId: string, reqs: seq<GatedRequest>, env: Env)
    requires !IsPremium(s.plan) && Dependable(env)
    ensures var t := Replay(s, userId, reqs, env);
            var k := Min(|reqs|, Remaining(s.freeUsage));
            t.store.plan == s.plan &&
            t.store.freeUsage == s.freeUsage + k &&
            |t.store.creations| == |s.creations| + k &&
            t.store.creations[..|s.creations|] == s.creations &&
            (forall i :: 0 <= i < k ==> t.responses[i].body.Succeeded?) &&
            (forall i :: k <= i < |reqs| ==> t.responses[i] == LimitReached)
    decreases |reqs|
  {
    if reqs != [] {
      var e := Gated(s, userId, reqs[0], env);
      FreeQuota(e.store, userId, reqs[1..], env);
      if s.freeUsage < FreeRequestLimit {
        GatedRequestCounted(s, userId, reqs[0], env);
      }
    }
  }

  /**
   * From a fresh free account, ten gated requests in a row succeed and the eleventh
   * is refused with the quota message, leaving the counter at ten and ten new rows.
   */
  lemma TenThenLimit(s: Store, userId: string, reqs: seq<GatedRequest>, env: Env)
    requires !IsPremium(s.plan) && s.freeUsage == 0 && Dependable(env)
    requires |reqs| == FreeRequestLimit + 1
    ensures var t := Replay(s, userId, reqs, env);
            (forall i :: 0 <= i < FreeRequestLimit ==> t.responses[i].body.Succeeded?) &&
            t.responses[FreeRequestLimit] == LimitReached &&
            t.store.freeUsage == FreeRequestLimit &&
            |t.store.creations| == |s.creations| + FreeRequestLimit
  {
    FreeQuota(s, userId, reqs, env);
  }

  /** A premium caller is never refused by the quota and never has the counter touched. */
  lemma {:induction false} PremiumUnlimited(s: Store, userId: string, reqs: seq<GatedRequest>, env: Env)
    requires IsPremium(s.plan)
    ensures var t := Replay(s, userId, reqs, env);
            t.store.freeUsage == s.freeUsage && t.store.plan == s.plan &&
            forall i :: 0 <= i < |reqs| ==> t.responses[i].status != 403
    decreases |reqs|
  {
    if reqs != [] {
      var e := Gated(s, userId, reqs[0], env);
      PremiumUnlimited(e.store, userId, reqs[1..], env);
    }
  }

  /** The number of successful responses. */
  function Successes(rs: seq<Response>): (n: nat)
    ensures n <= |rs|
    ensures n == 0 <==> forall i :: 0 <= i < |rs| ==> rs[i].body.Failed?
    decreases |rs|
  {
    if rs == [] then 0
    else (if rs[0].body.Succeeded? then 1 else 0) + Successes(rs[1..])
  }

  /**
   * Whatever the services do, a free plan's counter grows by exactly the number of
   * successful gated requests, and no more than `Remaining(used)` of them succeed.
   * A throwing metadata write keeps its row but is neither a success nor a use.
   */
  lemma {:induction false} QuotaBound(s: Store, userId: string, reqs: seq<GatedRequest>, env: Env)
    requires !IsPremium(s.plan)
    ensures var t := Replay(s, userId, reqs, env);
            t.store.freeUsage == s.freeUsage + Successes(t.responses) &&
            Successes(t.responses) <= Remaining(s.freeUsage)
    decreases |reqs|
  {
    if reqs != [] {
      var e := Gated(s, userId, reqs[0], env);
      var rest := Replay(e.store, userId, reqs[1..], env);
      QuotaBound(e.store, userId, reqs[1..], env);
      assert ([e.response] + rest.responses)[1..] == rest.responses;
    }
  }

  /**
   * The failure paths of a gated request that passed its gate: a throwing chat call or
   * INSERT answers 500 with nothing changed; a throwing metadata write answers 500 too,
   * but the row already inserted stays and the counter keeps its old value.
   */
  lemma GatedFailures(s: Store, userId: string, prompt: string, kind: string, tokens: int, env: Env)
    requires CheckFreeUsage(s.plan, s.freeUsage)
    ensures env.chat(prompt, tokens).Threw? ==>
              GatedStep(s, userId, prompt, kind, tokens, env) == Exchange(s, ServerError(env.chat(prompt, tokens).message))
    ensures env.chat(prompt, tokens).Returned? &&
            env.insert(Creation(userId, prompt, env.chat(prompt, tokens).value, kind, false)).Threw? ==>
              GatedStep(s, userId, prompt, kind, tokens, env) ==
              Exchange(s, ServerError(env.insert(Creation(userId, prompt, env.chat(prompt, tokens).value, kind, false)).message))
    ensures env.chat(prompt, tokens).Returned? &&
            env.insert(Creation(userId, prompt, env.chat(prompt, tokens).value, kind, false)).Returned? &&
            !IsPremium(s.plan) && env.setFreeUsage(s.freeUsage + 1).Threw? ==>
              GatedStep(s, userId, prompt, kind, tokens, env) ==
              Exchange(s.(creations := s.creations + [Creation(userId, prompt, env.chat(prompt, tokens).value, kind, false)]),
                       ServerError(env.setFreeUsage(s.freeUsage + 1).message))
  {
  }

  /**
   * The server does not check the object name: for a premium caller whose upload and
   * INSERT succeed, any name (several words included) is removed and recorded.
   */
  lemma AnyObjectNameAccepted(s: Store, userId: string, objectName: string, image: UploadedFile, env: Env)
    requires IsPremium(s.plan)
    requires env.upload(image.path).Returned?
    requires env.insert(Creation(userId, "Removed " + objectName + " from image",
                                 env.transformUrl(env.upload(image.path).value, "gen_remove:" + objectName), "image", false)).Returned?
    ensures ObjectStep(s, userId, objectName, Some(image), env).response ==
            Respond(env.transformUrl(env.upload(image.path).value, "gen_remove:" + objectName))
  {
  }

  /**
   * The controller as the state it works on: the signed-in user's plan and counter
   * (kept by the identity provider) and the creations table. Each handler method
   * behaves as its step function says.
   */
  class Server {
    const userId: string
    var plan: string
    var freeUsage: nat
    var creations: seq<Creation>

    function State(): Store
      reads this
    {
      Store(plan, freeUsage, creations)
    }

    constructor (userId: string, plan: string, freeUsage: nat, creations: seq<Creation>)
      ensures this.userId == userId && State() == Store(plan, freeUsage, creations)
    {
      this.userId := userId;
      this.plan := plan;
      this.freeUsage := freeUsage;
      this.creations := creations;
    }

    /** The INSERT: the table gains the row unless the database throws. */
    method Insert(row: Creation, env: Env) returns (error: Option<string>)
      modifies this
      ensures plan == old(plan) && freeUsage == old(freeUsage)
      ensures error.None? <==> env.insert(row).Returned?
      ensures error.Some? ==> error.value == env.insert(row).message && creations == old(creations)
      ensures error.None? ==> creations == old(creations) + [row]
    {
      var stored := env.insert(row);
      if stored.Threw? {
        return Some(stored.message);
      }
      creations := creations + [row];
      return None;
    }

    /** `incrementUsage`: on a free plan, the metadata write of the counter plus one. */
    method IncrementUsage(env: Env) returns (error: Option<string>)
      modifies this
      ensures match IncrementedUsage(old(State()), env)
        case Returned(t) => error.None? && State() == t
        case Threw(m) => error == Some(m) && State() == old(State())
    {
      if plan != "premium" {
        var written := env.setFreeUsage(freeUsage + 1);
        if written.Threw? {
          return Some(written.message);
        }
        freeUsage := freeUsage + 1;
      }
      return None;
    }

    /** The part every handler shares once its gate has passed and the delegate has answered. */
    method Finish(prompt: string, kind: string, publish: bool, reply: Outcome<string>, counted: bool, env: Env)
      returns (res: Response)
      modifies this
      ensures Exchange(State(), res) == Complete(old(State()), userId, prompt, kind, publish, reply, counted, env)
    {
      if reply.Threw? {
        return ServerError(reply.message);
      }
      var content := reply.value;
      var error := Insert(Creation(userId, prompt, content, kind, publish), env);
      if error.Some? {
        return ServerError(error.value);
      }
      if counted {
        error := IncrementUsage(env);
        if error.Some? {
          return ServerError(error.value);
        }
      }
      return Respond(content);
    }

    method GenerateArticle(prompt: string, length: Option<int>, env: Env) returns (res: Response)
      modifies this
      ensures Exchange(State(), res) == GatedStep(old(State()), userId, prompt, "article", MaxTokens(length), env)
    {
      if !CheckFreeUsage(plan, freeUsage) {
        return LimitReached;
      }
      var content := env.chat(prompt, MaxTokens(length));
      res := Finish(prompt, "article", false, content, true, env);
    }

    method GenerateBlogTitle(prompt: string, env: Env) returns (res: Response)
      modifies this
      ensures Exchange(State(), res) == GatedStep(old(State()), userId, prompt, "blog-title", BlogTitleTokens, env)
    {
      if !CheckFreeUsage(plan, freeUsage) {
        return LimitReached;
      }
      var content := env.chat(prompt, BlogTitleTokens);
      res := Finish(prompt, "blog-title", false, content, true, env);
    }

    method GenerateImage(prompt: string, publish: Option<bool>, env: Env) returns (res: Response)
      modifies this
      ensures Exchange(State(), res) == ImageStep(old(State()), userId, prompt, publish, env)
    {
      if plan != "premium" {
        return PremiumOnly;
      }
      var secureUrl := env.generateImage(prompt);
      res := Finish(prompt, "image", publish.GetOr(false), secureUrl, false, env);
    }

    method RemoveImageBackground(image: Option<UploadedFile>, env: Env) returns (res: Response)
      modifies this
      ensures Exchange(State(), res) == BackgroundStep(old(State()), userId, image, env)
    {
      if plan != "premium" {
        return PremiumOnly;
      }
      if image.None? {
        return ServerError(MissingFileMessage("path"));
      }
      var secureUrl := env.uploadWithoutBackground(image.value.path);
      res := Finish(BackgroundPrompt, "image", false, secureUrl, false, env);
    }

    method RemoveImageObject(objectName: string, image: Option<UploadedFile>, env: Env) returns (res: Response)
      modifies this
      ensures Exchange(State(), res) == ObjectStep(old(State()), userId, objectName, image, env)
    {
      if plan != "premium" {
        return PremiumOnly;
      }
      if image.None? {
        return ServerError(MissingFileMessage("path"));
      }
      var uploaded := env.upload(image.value.path);
      if uploaded.Threw? {
        return ServerError(uploaded.message);
      }
      var imageUrl := env.transformUrl(uploaded.value, "gen_remove:" + objectName);
      res := Finish("Removed " + objectName + " from image", "image", false, Returned(imageUrl), false, env);
    }

    method ResumeReview(resume: Option<UploadedFile>, env: Env) returns (res: Response)
      modifies this
      ensures Exchange(State(), res) == ResumeStep(old(State()), userId, resume, env)
    {
      if plan != "premium" {
        return PremiumOnly;
      }
      if resume.None? {
        return ServerError(MissingFileMessage("size"));
      }
      if resume.value.size > MaxResumeBytes {
        return Response(200, Failed(TooLargeMessage));
      }
      var parsed := env.parsePdf(resume.value.path);
      if parsed.Threw? {
        return ServerError(parsed.message);
      }
      var text := PdfText.ExtractText(parsed.value, env.decode);
      if Trim(text) == "" {
        return Response(200, Failed(NoTextMessage));
      }
      var content := env.chat(ReviewPrompt(text), ResumeReviewTokens);
      res := Finish(ResumePrompt, "resume-review", false, content, false, env);
    }
  }
}
