/** Small datatypes shared by every component model. */
module Base {
  datatype Option<+T> = None | Some(value: T)

  datatype Result<+T, +E> = Ok(value: T) | Err(error: E)

  type AttemptId = nat

  /** A text that is not empty. */
  type Text = t: string | t != "" witness "x"

  datatype EffectClass =
    NoEffect | IdempotentRead | IdempotentWrite | PaidInference | NonIdempotentWrite | Production | Credential

  /** Effective permission for one action, from the widest to the strictest. */
  datatype Permission = ReadOnly | ApprovalRequired | Denied
  {
    function Rank(): nat { match this case ReadOnly => 0 case ApprovalRequired => 1 case Denied => 2 }

    function Intersect(other: Permission): Permission { if Rank() >= other.Rank() then this else other }
  }

  /** What a cancellation reports. */
  datatype CancelStatus = Confirmed | Unconfirmed

  /** Human decision for an uncertain external outcome. */
  datatype Resolution = Retry | AcceptResult | Abandon

  /** The bound of each integer width the sources use. */
  const U16_MAX := 0xFFFF
  const U32_MAX := 0xFFFF_FFFF
  const U64_MAX := 0xFFFF_FFFF_FFFF_FFFF

  /** `k * n` by addition, so that measures unfold one summand at a time. */
  function Times(k: nat, n: nat): nat { if k == 0 then 0 else n + Times(k - 1, n) }

  lemma {:induction false} TimesGrows(a: nat, b: nat, n: nat)
    requires a <= b
    ensures Times(a, n) <= Times(b, n)
    decreases b - a
  {
    if a < b { TimesGrows(a, b - 1, n); }
  }

  /** Bytes of a character in UTF-8. */
  function Utf8Width(c: char): nat {
    if c as int < 0x80 then 1 else if c as int < 0x800 then 2 else if c as int < 0x1_0000 then 3 else 4
  }

  /** What `str::len` counts. */
  function Utf8Bytes(text: string): nat {
    if text == [] then 0 else Utf8Width(text[0]) + Utf8Bytes(text[1..])
  }
}
