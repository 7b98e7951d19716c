/**
 * The string comparison GLib offers as `g_strcmp0`: C's `strcmp` extended
 * so that a `NULL` argument is accepted and sorts before every string.
 * Only the sign of the result is modelled, since callers only test it.
 */
module GLibStrings {
  import opened Wrappers

  /**
   * C's `strcmp` on two NUL-terminated strings, character by character.
   * A string that ends first compares as smaller, exactly as its
   * terminating NUL would.
   */
  function Strcmp(a: string, b: string): (r: int)
    ensures -1 <= r <= 1
    ensures r == 0 <==> a == b
  {
    if a == [] && b == [] then 0
    else if a == [] then -1
    else if b == [] then 1
    else if a[0] < b[0] then -1
    else if a[0] > b[0] then 1
    else
      var rest := Strcmp(a[1..], b[1..]);
      assert a == [a[0]] + a[1..] && b == [b[0]] + b[1..];
      rest
  }

  /** `g_strcmp0`: `NULL` equals only `NULL` and sorts before any string. */
  function Strcmp0(a: Option<string>, b: Option<string>): (r: int)
    ensures r == 0 <==> a == b
    ensures a.None? && b.Some? ==> r < 0
    ensures a.Some? && b.None? ==> r > 0
  {
    match (a, b)
    case (None, None) => 0
    case (None, Some(_)) => -1
    case (Some(_), None) => 1
    case (Some(x), Some(y)) => Strcmp(x, y)
  }
}
