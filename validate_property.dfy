/**
 * The request validators that run before the property controller. The create and
 * update validators push one message per failed check onto a list, in a fixed
 * order, and answer 400 with the whole list when it is not empty; otherwise they
 * pass the request on. The id validator accepts exactly 24 hexadecimal digits.
 */
module ValidateProperty {
  import opened Wrappers
  import opened Text
  import opened Http
  import opened ObjectIds
  import opened PropertyModel

  /** A file the upload middleware stored; the controller only uses its path. */
  datatype UploadedFile = UploadedFile(path: string)

  /** A create or update request: the JSON or multipart body and the uploaded files, if any. */
  datatype Request = Request(body: Fields, files: Option<seq<UploadedFile>>)

  /** The create validator's messages, in the order its checks run. */
  const CreateMessages: seq<string> := [
    "Title is required",
    "At least one image is required",
    "Category is required",
    "Listing type is required",
    "Valid price is required",
    "Valid number of bedrooms is required",
    "Valid number of bathrooms is required",
    "Valid area is required",
    "Description is required",
    "Furnishing type is required"
  ]

  /** The update validator's messages, in the order its checks run. */
  const UpdateMessages: seq<string> := [
    "Price must be greater than 0",
    "Bedrooms cannot be negative",
    "Bathrooms cannot be negative",
    "Area must be greater than 0"
  ]

  /** `!x || x.trim() === ''`: missing, empty or only whitespace. */
  predicate Blank(v: Option<string>) {
    v.None? || Trim(v.value) == []
  }

  /** Uploaded files, or a non-empty `images` array in the body. */
  predicate HasImages(req: Request) {
    || (req.files.Some? && |req.files.value| > 0)
    || (req.body.images.Some? && |req.body.images.value| > 0)
  }

  /** Which of the create checks fail, in the order of `CreateMessages`. */
  function CreateFailures(req: Request): (failed: seq<bool>)
    ensures |failed| == |CreateMessages|
  {
    var b := req.body;
    [ Blank(b.title),
      !HasImages(req),
      !TruthyText(b.category),
      !TruthyText(b.listingType),
      b.price.None? || b.price.value <= 0,
      b.bedrooms.None? || b.bedrooms.value < 0,
      b.bathrooms.None? || b.bathrooms.value < 0,
      b.area.None? || b.area.value <= 0,
      Blank(b.description),
      !TruthyText(b.furnishing) ]
  }

  /** Which of the update checks fail: only the fields that are present are checked. */
  function UpdateFailures(req: Request): (failed: seq<bool>)
    ensures |failed| == |UpdateMessages|
  {
    var b := req.body;
    [ b.price.Some? && b.price.value <= 0,
      b.bedrooms.Some? && b.bedrooms.value < 0,
      b.bathrooms.Some? && b.bathrooms.value < 0,
      b.area.Some? && b.area.value <= 0 ]
  }

  /** A check's contribution to the list: its message when it failed, nothing otherwise. */
  function Msg(failed: bool, message: string): seq<string> {
    if failed then [message] else []
  }

  /** The messages whose check failed, keeping their order. */
  function Select(messages: seq<string>, failed: seq<bool>): (r: seq<string>)
    requires |messages| == |failed|
  {
    if messages == [] then []
    else
      var n := |messages| - 1;
      Select(messages[..n], failed[..n]) + Msg(failed[n], messages[n])
  }

  /** Adding one more check appends its message when it fails. */
  lemma SelectSnoc(messages: seq<string>, failed: seq<bool>, n: nat)
    requires n < |messages| == |failed|
    ensures Select(messages[..n + 1], failed[..n + 1])
         == Select(messages[..n], failed[..n]) + Msg(failed[n], messages[n])
  {
    assert messages[..n + 1][..n] == messages[..n];
    assert failed[..n + 1][..n] == failed[..n];
  }

  lemma SelectWhole(messages: seq<string>, failed: seq<bool>)
    requires |messages| == |failed|
    ensures Select(messages[..|messages|], failed[..|failed|]) == Select(messages, failed)
  {
    assert messages[..|messages|] == messages && failed[..|failed|] == failed;
  }

  /** One more check: its message, if it failed, goes after those of the checks before it. */
  lemma Step(messages: seq<string>, failed: seq<bool>, n: nat, acc: seq<string>)
    requires n < |messages| == |failed|
    requires Select(messages[..n], failed[..n]) == acc
    ensures Select(messages[..n + 1], failed[..n + 1]) == acc + Msg(failed[n], messages[n])
  {
    SelectSnoc(messages, failed, n);
  }

  lemma StepFirst(messages: seq<string>, failed: seq<bool>)
    requires 0 < |messages| == |failed|
    ensures Select(messages[..1], failed[..1]) == Msg(failed[0], messages[0])
  {
    SelectSnoc(messages, failed, 0);
  }

  /** Ten checks in a row push their messages in order. */
  lemma SelectTen(messages: seq<string>, failed: seq<bool>)
    requires |messages| == |failed| == 10
    ensures Select(messages, failed)
         == Msg(failed[0], messages[0]) + Msg(failed[1], messages[1]) + Msg(failed[2], messages[2])
          + Msg(failed[3], messages[3]) + Msg(failed[4], messages[4]) + Msg(failed[5], messages[5])
          + Msg(failed[6], messages[6]) + Msg(failed[7], messages[7]) + Msg(failed[8], messages[8])
          + Msg(failed[9], messages[9])
  {
    var m, f := messages, failed;
    StepFirst(m, f);
    var acc := Msg(f[0], m[0]);
    Step(m, f, 1, acc);
    acc := acc + Msg(f[1], m[1]);
    Step(m, f, 2, acc);
    acc := acc + Msg(f[2], m[2]);
    Step(m, f, 3, acc);
    acc := acc + Msg(f[3], m[3]);
    Step(m, f, 4, acc);
    acc := acc + Msg(f[4], m[4]);
    Step(m, f, 5, acc);
    acc := acc + Msg(f[5], m[5]);
    Step(m, f, 6, acc);
    acc := acc + Msg(f[6], m[6]);
    Step(m, f, 7, acc);
    acc := acc + Msg(f[7], m[7]);
    Step(m, f, 8, acc);
    acc := acc + Msg(f[8], m[8]);
    Step(m, f, 9, acc);
    acc := acc + Msg(f[9], m[9]);
    SelectWhole(m, f);
  }

  /** Four checks in a row push their messages in order. */
  lemma SelectFour(messages: seq<string>, failed: seq<bool>)
    requires |messages| == |failed| == 4
    ensures Select(messages, failed)
         == Msg(failed[0], messages[0]) + Msg(failed[1], messages[1]) + Msg(failed[2], messages[2])
          + Msg(failed[3], messages[3])
  {
    var m, f := messages, failed;
    StepFirst(m, f);
    var acc := Msg(f[0], m[0]);
    Step(m, f, 1, acc);
    acc := acc + Msg(f[1], m[1]);
    Step(m, f, 2, acc);
    acc := acc + Msg(f[2], m[2]);
    Step(m, f, 3, acc);
    acc := acc + Msg(f[3], m[3]);
    SelectWhole(m, f);
  }

  /** The number of failed checks. */
  function CountTrue(failed: seq<bool>): (n: nat)
    ensures n <= |failed|
  {
    if failed == [] then 0 else CountTrue(failed[..|failed| - 1]) + (if failed[|failed| - 1] then 1 else 0)
  }

  /** The positions of the failed checks, in increasing order. */
  function FailedPositions(failed: seq<bool>): (ps: seq<nat>)
    ensures forall k | 0 <= k < |ps| :: ps[k] < |failed| && failed[ps[k]]
    ensures forall k, l | 0 <= k < l < |ps| :: ps[k] < ps[l]
    ensures forall i | 0 <= i < |failed| && failed[i] :: i in ps
  {
    if failed == [] then []
    else
      var n := |failed| - 1;
      FailedPositions(failed[..n]) + (if failed[n] then [n] else [])
  }

  /** One message per failed check: the list is as long as the number of failures. */
  lemma {:induction false} SelectLength(messages: seq<string>, failed: seq<bool>)
    requires |messages| == |failed|
    ensures |Select(messages, failed)| == CountTrue(failed)
  {
    if messages != [] {
      var n := |messages| - 1;
      SelectLength(messages[..n], failed[..n]);
    }
  }

  /** The list holds the failed checks' messages in check order: message k is that of the k-th failure. */
  lemma {:induction false} SelectInOrder(messages: seq<string>, failed: seq<bool>)
    requires |messages| == |failed|
    ensures var ps := FailedPositions(failed);
      |Select(messages, failed)| == |ps|
      && forall k | 0 <= k < |ps| :: Select(messages, failed)[k] == messages[ps[k]]
  {
    if messages != [] {
      var n := |messages| - 1;
      SelectInOrder(messages[..n], failed[..n]);
      var ps := FailedPositions(failed[..n]);
      assert FailedPositions(failed) == ps + (if failed[n] then [n] else []);
      assert Select(messages, failed) == Select(messages[..n], failed[..n]) + Msg(failed[n], messages[n]);
    }
  }

  /** A message is in the list exactly when one of the checks carrying it failed. */
  lemma {:induction false} SelectMember(messages: seq<string>, failed: seq<bool>, m: string)
    requires |messages| == |failed|
    ensures m in Select(messages, failed) <==> exists i | 0 <= i < |messages| :: failed[i] && messages[i] == m
  {
    if messages != [] {
      var n := |messages| - 1;
      SelectMember(messages[..n], failed[..n], m);
      if m in Select(messages, failed) && m !in Select(messages[..n], failed[..n]) {
        assert failed[n] && messages[n] == m;
      }
      if exists i | 0 <= i < |messages| :: failed[i] && messages[i] == m {
        var i :| 0 <= i < |messages| && failed[i] && messages[i] == m;
        if i < n {
          assert messages[..n][i] == m && failed[..n][i];
        }
      }
    }
  }

  /** With distinct messages, a check's message is in the list exactly when that check failed. */
  lemma SelectMemberDistinct(messages: seq<string>, failed: seq<bool>, i: nat)
    requires i < |messages| == |failed| && Distinct(messages)
    ensures messages[i] in Select(messages, failed) <==> failed[i]
  {
    SelectMember(messages, failed, messages[i]);
    if messages[i] in Select(messages, failed) {
      var j :| 0 <= j < |messages| && failed[j] && messages[j] == messages[i];
      assert j == i;
    }
  }

  /** The list is empty exactly when no check failed. */
  lemma SelectEmpty(messages: seq<string>, failed: seq<bool>)
    requires |messages| == |failed|
    ensures Select(messages, failed) == [] <==> forall i | 0 <= i < |failed| :: !failed[i]
  {
    SelectInOrder(messages, failed);
  }

  function ValidationFailed<D>(errors: seq<string>): Reply<D> {
    Reply(400, false, Some("Validation failed"), Some(errors), None, None, None, None, None)
  }

  /** The middleware's decision on a finished error list: pass on when empty, else 400 with the list. */
  function Verdict<D>(errors: seq<string>): (g: Gate<D>)
    ensures g.Next? <==> errors == []
    ensures g.Halt? ==> g.reply == ValidationFailed(errors)
  {
    if |errors| > 0 then Halt(ValidationFailed(errors)) else Next
  }

  /** The create validator's error list: the messages of the failed checks, in check order. */
  function CreateErrors(req: Request): seq<string> {
    Select(CreateMessages, CreateFailures(req))
  }

  /** The update validator's error list: the messages of the failed checks, in check order. */
  function UpdateErrors(req: Request): seq<string> {
    Select(UpdateMessages, UpdateFailures(req))
  }

  /** `if (failed) errors.push(message)`. */
  method PushIf(errors: seq<string>, failed: bool, message: string) returns (r: seq<string>)
    ensures r == errors + Msg(failed, message)
  {
    r := errors;
    if failed {
      r := r + [message];
    }
  }

  /** The ten checks of `validatePropertyCreate`, in order, each pushing its message when it fails. */
  method CreateChecks(req: Request) returns (errors: seq<string>)
    ensures errors == CreateErrors(req)
  {
    var m, f := CreateMessages, CreateFailures(req);
    errors := Msg(f[0], m[0]);
    errors := PushIf(errors, f[1], m[1]);
    errors := PushIf(errors, f[2], m[2]);
    errors := PushIf(errors, f[3], m[3]);
    errors := PushIf(errors, f[4], m[4]);
    errors := PushIf(errors, f[5], m[5]);
    errors := PushIf(errors, f[6], m[6]);
    errors := PushIf(errors, f[7], m[7]);
    errors := PushIf(errors, f[8], m[8]);
    errors := PushIf(errors, f[9], m[9]);
    SelectTen(m, f);
  }

  /** `validatePropertyCreate`: runs the ten checks and answers 400 with every failure, or passes on. */
  method ValidatePropertyCreate<D>(req: Request) returns (g: Gate<D>)
    ensures g == Verdict(Select(CreateMessages, CreateFailures(req)))
  {
    var errors := CreateChecks(req);
    if |errors| > 0 {
      g := Halt(ValidationFailed(errors));
    } else {
      g := Next;
    }
  }

  /** The four checks of `validatePropertyUpdate`, in order; each looks only at a field that is present. */
  method UpdateChecks(req: Request) returns (errors: seq<string>)
    ensures errors == UpdateErrors(req)
  {
    var m, f := UpdateMessages, UpdateFailures(req);
    errors := Msg(f[0], m[0]);
    errors := PushIf(errors, f[1], m[1]);
    errors := PushIf(errors, f[2], m[2]);
    errors := PushIf(errors, f[3], m[3]);
    SelectFour(m, f);
  }

  /** `validatePropertyUpdate`: answers 400 with every failure of the four checks, or passes on. */
  method ValidatePropertyUpdate<D>(req: Request) returns (g: Gate<D>)
    ensures g == Verdict(Select(UpdateMessages, UpdateFailures(req)))
  {
    var errors := UpdateChecks(req);
    if |errors| > 0 {
      g := Halt(ValidationFailed(errors));
    } else {
      g := Next;
    }
  }

  lemma CreateMessagesDistinct()
    ensures Distinct(CreateMessages)
  {
  }

  lemma UpdateMessagesDistinct()
    ensures Distinct(UpdateMessages)
  {
  }

  /**
   * Each create message appears exactly when its own check fails, at most once,
   * and the list has one entry per failed check, so at most ten.
   */
  lemma CreateErrorsExact(req: Request, i: nat)
    requires i < |CreateMessages|
    ensures CreateMessages[i] in CreateErrors(req) <==> CreateFailures(req)[i]
    ensures |CreateErrors(req)| == CountTrue(CreateFailures(req)) <= 10
  {
    CreateMessagesDistinct();
    SelectMemberDistinct(CreateMessages, CreateFailures(req), i);
    SelectLength(CreateMessages, CreateFailures(req));
  }

  /** The create validator lets a request through exactly when all ten checks pass. */
  lemma CreatePassesIff(req: Request)
    ensures CreateErrors(req) == [] <==>
      && !Blank(req.body.title) && HasImages(req)
      && TruthyText(req.body.category) && TruthyText(req.body.listingType)
      && req.body.price.Some? && req.body.price.value > 0
      && req.body.bedrooms.Some? && req.body.bedrooms.value >= 0
      && req.body.bathrooms.Some? && req.body.bathrooms.value >= 0
      && req.body.area.Some? && req.body.area.value > 0
      && !Blank(req.body.description) && TruthyText(req.body.furnishing)
  {
    var f := CreateFailures(req);
    SelectEmpty(CreateMessages, f);
    assert (forall i | 0 <= i < |f| :: !f[i]) <==>
      !f[0] && !f[1] && !f[2] && !f[3] && !f[4] && !f[5] && !f[6] && !f[7] && !f[8] && !f[9];
  }

  /** A title or description that is missing or only whitespace fails its check. */
  lemma BlankMeansWhitespace(v: Option<string>)
    ensures Blank(v) <==> v.None? || AllWhitespace(v.value)
  {
    if v.Some? {
      TrimEmptyIff(v.value);
    }
  }

  /** Price and area must be strictly positive; bedrooms and bathrooms may be 0 but not negative. */
  lemma PositiveVersusNonNegative(req: Request)
    ensures "Valid price is required" in CreateErrors(req) <==> req.body.price.None? || req.body.price.value <= 0
    ensures "Valid area is required" in CreateErrors(req) <==> req.body.area.None? || req.body.area.value <= 0
    ensures ("Valid number of bedrooms is required" in CreateErrors(req))
      <==> req.body.bedrooms.None? || req.body.bedrooms.value < 0
    ensures ("Valid number of bathrooms is required" in CreateErrors(req))
      <==> req.body.bathrooms.None? || req.body.bathrooms.value < 0
  {
    CreateErrorsExact(req, 4);
    CreateErrorsExact(req, 5);
    CreateErrorsExact(req, 6);
    CreateErrorsExact(req, 7);
  }

  /** The update validator reports at most four problems, each exactly when its present field is out of range. */
  lemma UpdateErrorsExact(req: Request, i: nat)
    requires i < |UpdateMessages|
    ensures UpdateMessages[i] in UpdateErrors(req) <==> UpdateFailures(req)[i]
    ensures |UpdateErrors(req)| == CountTrue(UpdateFailures(req)) <= 4
  {
    UpdateMessagesDistinct();
    SelectMemberDistinct(UpdateMessages, UpdateFailures(req), i);
    SelectLength(UpdateMessages, UpdateFailures(req));
  }

  /** An update body without price, bedrooms, bathrooms and area always passes. */
  lemma UpdateWithoutNumbersPasses(req: Request)
    requires req.body.price.None? && req.body.bedrooms.None?
    requires req.body.bathrooms.None? && req.body.area.None?
    ensures UpdateErrors(req) == []
  {
    SelectEmpty(UpdateMessages, UpdateFailures(req));
  }

  const InvalidIdMessage := "Invalid property ID format"

  /** `validateObjectId`: exactly the strings of 24 hex digits pass; anything else gets 400. */
  function ValidateObjectId<D>(id: string): (g: Gate<D>)
    ensures g.Next? <==> Parse(id).Some?
    ensures g.Halt? ==> g.reply == Failure(400, InvalidIdMessage)
  {
    if !IsObjectIdString(id) then Halt(Failure(400, InvalidIdMessage)) else Next
  }
}
