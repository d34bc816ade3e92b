/**
 * Reading an order status from its name, as the admin endpoint does before calling
 * `updateOrderStatus`: `OrderStatus.valueOf(name.toUpperCase())`, where an unknown name
 * is a bad request.
 */
module StatusNames {
  import opened Common
  import opened Entities

  /** The enum constant's name. */
  function Name(s: Status): (r: string)
  {
    match s
    case Pending => "PENDING"
    case Confirmed => "CONFIRMED"
    case Shipped => "SHIPPED"
    case Delivered => "DELIVERED"
    case Cancelled => "CANCELLED"
  }

  /**
   * Java's `toUpperCase` of one character, exact for every character whose upper case
   * is made of ASCII capitals: the ASCII small letters, the dotless i, the long s, the
   * sharp s and the Latin ligatures U+FB00..U+FB06. Every other character is kept; Java
   * maps none of them to ASCII capitals, so no name containing one parses either way.
   */
  function UpperOf(c: char): (r: string)
  {
    if 'a' <= c <= 'z' then [(c as int - 32) as char]
    else if c == '\U{0131}' then "I"
    else if c == '\U{017F}' then "S"
    else if c == '\U{00DF}' then "SS"
    else if c == '\U{FB00}' then "FF"
    else if c == '\U{FB01}' then "FI"
    else if c == '\U{FB02}' then "FL"
    else if c == '\U{FB03}' then "FFI"
    else if c == '\U{FB04}' then "FFL"
    else if c == '\U{FB05}' || c == '\U{FB06}' then "ST"
    else [c]
  }

  function UpperCase(s: string): (r: string)
  {
    if s == [] then [] else UpperOf(s[0]) + UpperCase(s[1..])
  }

  const InvalidStatus := "Valid statuses: PENDING, CONFIRMED, SHIPPED, DELIVERED, CANCELLED"

  /** Missing name, unknown name, or the status whose name is the upper-cased input. */
  function ParseStatus(name: Option<string>): (r: Result<Status>)
    ensures name.None? ==> r == Err(BadRequest("status is required"))
    ensures r.Ok? ==> name.Some? && Name(r.value) == UpperCase(name.value)
    ensures name.Some? && r.Err? ==> r == Err(BadRequest(InvalidStatus))
                                     && forall s: Status :: Name(s) != UpperCase(name.value)
  {
    if name.None? then Err(BadRequest("status is required"))
    else
      var upper := UpperCase(name.value);
      if upper == "PENDING" then Ok(Pending)
      else if upper == "CONFIRMED" then Ok(Confirmed)
      else if upper == "SHIPPED" then Ok(Shipped)
      else if upper == "DELIVERED" then Ok(Delivered)
      else if upper == "CANCELLED" then Ok(Cancelled)
      else Err(BadRequest(InvalidStatus))
  }

  /** `s` spells `t`, a word of ASCII capitals, with any of its letters in lower case. */
  predicate SpellsIgnoringAsciiCase(s: string, t: string)
  {
    && |s| == |t|
    && forall k :: 0 <= k < |t| ==>
         'A' <= t[k] <= 'Z' && (s[k] == t[k] || s[k] as int == t[k] as int + 32)
  }

  lemma {:induction false} UpperCaseOfAsciiSpelling(s: string, t: string)
    requires SpellsIgnoringAsciiCase(s, t)
    ensures UpperCase(s) == t
  {
    if s != [] {
      assert SpellsIgnoringAsciiCase(s[1..], t[1..]) by {
        forall k | 0 <= k < |t| - 1
          ensures 'A' <= t[1..][k] <= 'Z' && (s[1..][k] == t[1..][k] || s[1..][k] as int == t[1..][k] as int + 32)
        {
          assert t[1..][k] == t[k + 1] && s[1..][k] == s[k + 1];
        }
      }
      UpperCaseOfAsciiSpelling(s[1..], t[1..]);
      assert UpperOf(s[0]) == [t[0]];
    }
  }

  /** A status name in any mix of ASCII case parses to that status. */
  lemma ParseIgnoresAsciiCase(name: string, s: Status)
    requires SpellsIgnoringAsciiCase(name, Name(s))
    ensures ParseStatus(Some(name)) == Ok(s)
  {
    UpperCaseOfAsciiSpelling(name, Name(s));
  }

  /** Every status parses back from its own name. */
  lemma ParseName(s: Status)
    ensures ParseStatus(Some(Name(s))) == Ok(s)
  {
    ParseIgnoresAsciiCase(Name(s), s);
  }
}
