/** The Bean Validation constraints the entities declare, one predicate per
    annotation, with the standard meaning: every constraint except `@NotNull`
    and `@NotEmpty` accepts `null`. */
module Validacao {
  import opened Opcao

  /** `@NotNull` */
  predicate NotNull<T>(v: Option<T>)
  {
    v.Some?
  }

  /** `@NotEmpty` on a string: not null and at least one character. */
  predicate NotEmpty(s: Option<string>)
  {
    s.Some? && |s.value| > 0
  }

  /** `@Size(min, max)` on a string. */
  predicate Size(s: Option<string>, min: int, max: int)
  {
    s.None? || min <= |s.value| <= max
  }

  /** `@Range(min)` with no upper bound. */
  predicate RangeMin(v: Option<int>, min: int)
  {
    v.None? || min <= v.value
  }

  /** `@Range(min, max)` */
  predicate Range(v: Option<int>, min: int, max: int)
  {
    v.None? || min <= v.value <= max
  }

  /** `@Past`: strictly before the instant `agora` at which validation runs. */
  predicate Past(instante: Option<int>, agora: int)
  {
    instante.None? || instante.value < agora
  }
}
