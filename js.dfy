/**
 * JavaScript value conventions shared by the backend handlers and the
 * React components: a field that may be `undefined` (or `null`) is an
 * `Option`, and the truthiness tests the source writes as `if (!x)` or
 * `a || b` are spelled out for strings.
 */
module Js {

  /** A value that may be absent (`undefined` or `null` in the source). */
  datatype Option<+T> = None | Some(value: T) {

    /** The wrapped value, or `default` when absent. */
    function GetOr(default: T): T {
      match this
      case Some(v) => v
      case None => default
    }
  }

  /** JavaScript truthiness of an optional string: present and non-empty. */
  predicate Truthy(s: Option<string>) {
    s.Some? && s.value != ""
  }

  /** The expression `s || fallback` for an optional string. */
  function OrElse(s: Option<string>, fallback: string): string {
    if Truthy(s) then s.value else fallback
  }

  /** The chain `v0 || v1 || ... || ''`: the first truthy value, else ''. */
  function FirstTruthy(vs: seq<Option<string>>): (r: string)
    ensures r != "" <==> exists i :: 0 <= i < |vs| && Truthy(vs[i])
    ensures r != "" ==> exists i :: 0 <= i < |vs| && vs[i] == Some(r) &&
                                   forall j :: 0 <= j < i ==> !Truthy(vs[j])
    ensures forall i :: 0 <= i < |vs| && Truthy(vs[i]) && (forall j :: 0 <= j < i ==> !Truthy(vs[j])) ==>
              r == vs[i].value
  {
    if vs == [] then ""
    else if Truthy(vs[0]) then vs[0].value
    else
      var r := FirstTruthy(vs[1..]);
      assert forall i :: 1 <= i < |vs| ==> vs[i] == vs[1..][i - 1];
      if r != "" then
        var k :| 0 <= k < |vs[1..]| && vs[1..][k] == Some(r) &&
                 forall j :: 0 <= j < k ==> !Truthy(vs[1..][j]);
        assert vs[k + 1] == Some(r);
        assert forall j :: 0 <= j < k + 1 ==> !Truthy(vs[j]) by {
          forall j | 0 <= j < k + 1 ensures !Truthy(vs[j]) {
            if j > 0 { assert vs[j] == vs[1..][j - 1]; }
          }
        }
        r
      else
        r
  }
}
