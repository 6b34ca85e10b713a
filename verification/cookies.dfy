/** The browser cookie store as a name -> value map, and the two session
    cookie names. Setting and deleting a cookie are map updates; the
    attributes of a written cookie travel with the write. */
module Cookies {
  import opened Wrappers

  type Jar = map<string, string>

  const AccessCookie: string := "accessTokenHealthCare"
  const RefreshCookie: string := "refreshTokenHealthCare"

  /** The two cookies that together make a session, in deletion order. */
  const SessionCookies: seq<string> := [AccessCookie, RefreshCookie]

  /** Attributes passed to `setCookie`. */
  datatype CookieOptions = CookieOptions(
    secure: bool,
    httpOnly: bool,
    maxAge: int,
    path: string,
    sameSite: string)

  datatype CookieWrite = CookieWrite(name: string, value: string, options: CookieOptions)

  /** Deleting a list of cookies: each named cookie is gone afterwards, every
      other cookie keeps its value; deleting an absent cookie is a no-op. */
  function DeleteAll(jar: Jar, names: seq<string>): (r: Jar)
    ensures r.Keys == jar.Keys - set n | n in names
    ensures forall k :: k in r ==> r[k] == jar[k]
    decreases |names|
  {
    if names == [] then jar
    else
      var rest := DeleteAll(jar, names[1..]);
      assert forall n :: n in names <==> n == names[0] || n in names[1..];
      rest - {names[0]}
  }

  /** Installing cookies in order: a later write of a name replaces an
      earlier one. */
  function ApplyWrites(jar: Jar, writes: seq<CookieWrite>): (r: Jar)
    ensures r.Keys == jar.Keys + set w | w in writes :: w.name
    ensures forall k :: k in jar && (forall i :: 0 <= i < |writes| ==> writes[i].name != k) ==> r[k] == jar[k]
    decreases |writes|
  {
    if writes == [] then jar
    else
      var w := writes[|writes| - 1];
      var front := writes[..|writes| - 1];
      assert writes == front + [w];
      assert forall x :: x in writes <==> x in front || x == w;
      ApplyWrites(jar, front)[w.name := w.value]
  }

  /** The last write of a name decides that cookie's value. */
  lemma {:induction false} LastWriteWins(jar: Jar, writes: seq<CookieWrite>, i: nat)
    requires i < |writes|
    requires forall j :: i < j < |writes| ==> writes[j].name != writes[i].name
    ensures writes[i].name in ApplyWrites(jar, writes)
    ensures ApplyWrites(jar, writes)[writes[i].name] == writes[i].value
    decreases |writes|
  {
    var front := writes[..|writes| - 1];
    if i < |writes| - 1 {
      LastWriteWins(jar, front, i);
    }
  }

  /** Two jars with the same names and the same values are the same jar. */
  lemma SameEntries(a: Jar, b: Jar)
    requires a.Keys == b.Keys
    requires forall k :: k in a ==> a[k] == b[k]
    ensures a == b
  {
  }
}
