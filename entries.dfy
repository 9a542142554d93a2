/** Entries of the astronomy-picture feed, and the few JavaScript value rules
    (Date comparison, truthiness of strings) that the gallery's logic relies on. */
module Entries {

  datatype Option<+T> = None | Some(value: T)

  /** A date as `new Date(text)` yields it: a calendar day, counted in days since
      1970-01-01 (the feed's `YYYY-MM-DD` dates all denote midnight UTC), or an
      invalid date (time value NaN) when the text does not parse. */
  datatype Date = At(day: int) | InvalidDate

  /** `a >= b` on two Date objects; every comparison with NaN is false. */
  predicate NotBefore(a: Date, b: Date) {
    a.At? && b.At? && a.day >= b.day
  }

  /** `a <= b` on two Date objects. */
  predicate NotAfter(a: Date, b: Date) {
    a.At? && b.At? && a.day <= b.day
  }

  /** `a > b` on two Date objects. */
  predicate Later(a: Date, b: Date) {
    a.At? && b.At? && a.day > b.day
  }

  /** An optional string field tested with `if` or `||`: absent and "" are falsy. */
  predicate Truthy(s: Option<string>) {
    s.Some? && s.value != ""
  }

  /** `a || b` where `a` is an optional string field and `b` a string. */
  function OrElse(a: Option<string>, b: string): string {
    if Truthy(a) then a.value else b
  }

  /** One record of the feed. `explanation`, `hdurl` and `thumbnail_url` may be missing. */
  datatype Entry = Entry(
    date: Date,
    title: string,
    explanation: Option<string>,
    mediaType: string,
    url: string,
    hdurl: Option<string>,
    thumbnailUrl: Option<string>)
  {
    /** `item.media_type === 'video'`; every other media type is handled as an image. */
    predicate IsVideo() {
      mediaType == "video"
    }
  }
}
