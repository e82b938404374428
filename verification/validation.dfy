/** The request-body checks the write handlers run before touching the
    database: `validate_shoe_payload`, the inline review checks, the login
    precondition and the brand name check. Each yields the message (or, for
    shoes, the list of messages) the handler answers with, or nothing when the
    body passes. */
module Validation {
  import opened Strings
  import opened Payload

  const ShoeFields: seq<string> := ["name", "brand_id", "size", "color", "price"]
  const ReviewFields: seq<string> := ["user_id", "shoe_id", "rating", "comment"]

  const MissingPrefix := "Missing fields: "
  const PriceError := "Price must be numeric"
  const RatingError := "Rating must be numeric"
  const NoFieldsError := "No fields provided"
  const CredentialsRequired := "Email and password are required"
  const NameRequired := "Name is required"

  /** `a` lists some of the entries of `b`, in `b`'s order. */
  predicate Subsequence(a: seq<string>, b: seq<string>)
    decreases |b|
  {
    if |a| == 0 then true
    else if |b| == 0 then false
    else (a[0] == b[0] && Subsequence(a[1..], b[1..])) || Subsequence(a, b[1..])
  }

  /** `[field for field in required if field not in data]` */
  function Missing(required: seq<string>, fs: seq<Field>): (r: seq<string>)
    ensures forall f :: f in r <==> f in required && f !in Keys(fs)
    ensures Subsequence(r, required)
  {
    if |required| == 0 then []
    else
      var rest := Missing(required[1..], fs);
      assert forall f :: f in required <==> f == required[0] || f in required[1..];
      if required[0] in Keys(fs) then rest
      else
        assert ([required[0]] + rest)[1..] == rest;
        [required[0]] + rest
  }

  /** `f"Missing fields: {', '.join(missing)}"` */
  function MissingMessage(missing: seq<string>): (r: string)
    ensures StartsWith(r, MissingPrefix)
  {
    MissingPrefix + Join(missing, ", ")
  }

  predicate AllPresent(required: seq<string>, fs: seq<Field>) {
    forall f :: f in required ==> f in Keys(fs)
  }

  /** Nothing is missing exactly when every required field is present. */
  lemma MissingNoneIff(required: seq<string>, fs: seq<Field>)
    ensures |Missing(required, fs)| == 0 <==> AllPresent(required, fs)
  {
  }

  /** A value stored under `key` that `validate_numeric` answers False for. */
  predicate NonNumericAt(fs: seq<Field>, key: string, parsesFloat: string -> bool) {
    key in Keys(fs) && FloatConversion(GetOrNull(fs, key), parsesFloat) == Refused
  }

  /** A value stored under `key` on which `validate_numeric` raises: the
      `OverflowError` of `float()` is not among the exceptions it catches. */
  predicate OverflowAt(fs: seq<Field>, key: string, parsesFloat: string -> bool) {
    key in Keys(fs) && FloatConversion(GetOrNull(fs, key), parsesFloat) == Overflows
  }

  /** The outcome of a check that calls `validate_numeric`: it returns, or an
      `OverflowError` escapes it and the handler. */
  datatype Checked<T> = Returned(value: T) | Overflowed

  /** The pair `validate_shoe_payload` returns. */
  datatype Verdict = Verdict(valid: bool, errors: seq<string>)

  /** The first error, when there is one, reports missing fields. */
  predicate ReportsMissing(errors: seq<string>) {
    |errors| > 0 && StartsWith(errors[0], MissingPrefix)
  }

  /** `validate_shoe_payload(data, partial)`: a full payload must carry all
      five shoe fields; any payload that carries a price must carry a numeric
      one. A missing-fields report comes before the price report, and a price
      whose conversion overflows raises instead of returning. */
  function ValidateShoePayload(fs: seq<Field>, partial: bool, parsesFloat: string -> bool): (r: Checked<Verdict>)
    ensures r.Overflowed? <==> OverflowAt(fs, "price", parsesFloat)
    ensures r.Returned? ==>
      var v := r.value;
      && (v.valid <==> |v.errors| == 0)
      && (v.valid <==> (partial || AllPresent(ShoeFields, fs)) && !NonNumericAt(fs, "price", parsesFloat))
      && |v.errors| == (if !partial && !AllPresent(ShoeFields, fs) then 1 else 0)
                       + (if NonNumericAt(fs, "price", parsesFloat) then 1 else 0)
      && (ReportsMissing(v.errors) <==> !partial && !AllPresent(ShoeFields, fs))
      && (ReportsMissing(v.errors) ==> v.errors[0] == MissingMessage(Missing(ShoeFields, fs)))
      && (PriceError in v.errors <==> NonNumericAt(fs, "price", parsesFloat))
  {
    var missing := if partial then [] else Missing(ShoeFields, fs);
    var first := if |missing| > 0 then [MissingMessage(missing)] else [];
    if OverflowAt(fs, "price", parsesFloat) then Overflowed
    else
      var second := if NonNumericAt(fs, "price", parsesFloat) then [PriceError] else [];
      assert PriceError[0] != MissingPrefix[0];
      assert !StartsWith(PriceError, MissingPrefix);
      MissingNoneIff(ShoeFields, fs);
      var errors := first + second;
      Returned(Verdict(|errors| == 0, errors))
  }

  /** What `validate_shoe_payload` accepts in full mode it accepts in
      partial mode too: partial mode only drops the missing-fields check. */
  lemma FullValidIsPartialValid(fs: seq<Field>, parsesFloat: string -> bool)
    ensures var full, part := ValidateShoePayload(fs, false, parsesFloat), ValidateShoePayload(fs, true, parsesFloat);
      && (full.Returned? <==> part.Returned?)
      && (full.Returned? && full.value.valid ==> part.value.valid)
      && (part.Returned? ==> part.value.errors == (if NonNumericAt(fs, "price", parsesFloat) then [PriceError] else []))
  {
  }

  /** The inline checks of `add_review`: all four review fields first, then a
      numeric rating; a rating whose conversion overflows raises. */
  function AddReviewError(fs: seq<Field>, parsesFloat: string -> bool): (r: Checked<Option<string>>)
    ensures r == Returned(None) <==> AllPresent(ReviewFields, fs) && IsNumeric(GetOrNull(fs, "rating"), parsesFloat)
    ensures r.Overflowed? <==> AllPresent(ReviewFields, fs) && OverflowAt(fs, "rating", parsesFloat)
    ensures !AllPresent(ReviewFields, fs) ==> r == Returned(Some(MissingMessage(Missing(ReviewFields, fs))))
    ensures AllPresent(ReviewFields, fs) && NonNumericAt(fs, "rating", parsesFloat) ==> r == Returned(Some(RatingError))
  {
    var missing := Missing(ReviewFields, fs);
    MissingNoneIff(ReviewFields, fs);
    if |missing| > 0 then Returned(Some(MissingMessage(missing)))
    else
      assert "rating" in ReviewFields;
      match FloatConversion(GetOrNull(fs, "rating"), parsesFloat)
      case Converts => Returned(None)
      case Refused => Returned(Some(RatingError))
      case Overflows => Overflowed
  }

  /** The inline checks of `update_review`: a non-empty body whose rating, if
      it has one, is numeric; a rating whose conversion overflows raises. */
  function UpdateReviewError(fs: seq<Field>, parsesFloat: string -> bool): (r: Checked<Option<string>>)
    ensures r == Returned(None) <==>
      |fs| > 0 && !NonNumericAt(fs, "rating", parsesFloat) && !OverflowAt(fs, "rating", parsesFloat)
    ensures r.Overflowed? <==> |fs| > 0 && OverflowAt(fs, "rating", parsesFloat)
    ensures |fs| == 0 ==> r == Returned(Some(NoFieldsError))
    ensures |fs| > 0 && NonNumericAt(fs, "rating", parsesFloat) ==> r == Returned(Some(RatingError))
  {
    if |fs| == 0 then Returned(Some(NoFieldsError))
    else if "rating" !in Keys(fs) then Returned(None)
    else
      match FloatConversion(GetOrNull(fs, "rating"), parsesFloat)
      case Converts => Returned(None)
      case Refused => Returned(Some(RatingError))
      case Overflows => Overflowed
  }

  /** The login precondition: both `email` and `password` present and truthy. */
  function LoginError(fs: seq<Field>): (r: Option<string>)
    ensures r.None? <==> Truthy(GetOrNull(fs, "email")) && Truthy(GetOrNull(fs, "password"))
    ensures r.Some? ==> r.value == CredentialsRequired
    ensures "email" !in Keys(fs) || "password" !in Keys(fs) ==> r.Some?
  {
    if !Truthy(GetOrNull(fs, "email")) || !Truthy(GetOrNull(fs, "password")) then Some(CredentialsRequired)
    else None
  }

  /** The check of `add_brand` and `update_brand`: a `name` key, whatever its value. */
  function BrandError(fs: seq<Field>): (r: Option<string>)
    ensures r.None? <==> "name" in Keys(fs)
    ensures r.Some? ==> r.value == NameRequired
  {
    if "name" !in Keys(fs) then Some(NameRequired) else None
  }
}
