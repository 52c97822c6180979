/**
 * Reading a positive integer tunable from the environment
 * (`getPositiveIntFromEnv` in src/auth/auth.service.ts).
 *
 * The configuration value is a string that the service passes to JavaScript's `Number`;
 * the model starts from the result of that conversion, a `JsNumber`.
 */
module EnvConfig {

  /** The value of `Number(raw)`: not a number, an infinity, or a finite real. */
  datatype JsNumber = NaN | PositiveInfinity | NegativeInfinity | Finite(x: real)

  predicate IsFinite(n: JsNumber) { n.Finite? }

  /**
   * The function as the source writes it: the default unless the number is finite and
   * greater than zero, otherwise `Math.floor` of it.
   */
  function GetPositiveIntFromEnv(parsed: JsNumber, defaultValue: int): (r: int)
    ensures !(IsFinite(parsed) && parsed.x > 0.0) ==> r == defaultValue
    ensures IsFinite(parsed) && parsed.x > 0.0 ==> r as real <= parsed.x < r as real + 1.0 && r >= 0
  {
    if IsFinite(parsed) && parsed.x > 0.0 then parsed.x.Floor else defaultValue
  }

  /** A fractional setting below one second passes the guard and yields zero, which is not positive. */
  lemma FractionalSettingYieldsZero()
    ensures GetPositiveIntFromEnv(Finite(0.5), 3600) == 0
  {
  }

  /**
   * The evidently intended reading: a positive integer number of seconds, falling back to the
   * default whenever the floor of the setting would not be positive. The session model uses this one.
   */
  function PositiveIntFromEnv(parsed: JsNumber, defaultValue: int): (r: int)
    requires defaultValue > 0
    ensures r > 0
    ensures IsFinite(parsed) && parsed.x >= 1.0 ==> r as real <= parsed.x < r as real + 1.0
    ensures !(IsFinite(parsed) && parsed.x >= 1.0) ==> r == defaultValue
  {
    if IsFinite(parsed) && parsed.x.Floor > 0 then parsed.x.Floor else defaultValue
  }

  /** The two agree on every setting except a finite one strictly between zero and one. */
  lemma CorrectionOnlyAffectsFractions(parsed: JsNumber, defaultValue: int)
    requires defaultValue > 0
    ensures !(IsFinite(parsed) && 0.0 < parsed.x < 1.0) <==>
            PositiveIntFromEnv(parsed, defaultValue) == GetPositiveIntFromEnv(parsed, defaultValue)
  {
  }
}
