/** The Dashboard: the security score over the stored passwords, the first
    showing of the session code, and the recent-items lists. */
module Dashboard {
  import opened Wrappers
  import opened Types
  import opened Text
  import AuthStore

  // ---- the security score ----

  predicate HasUpper(s: string) { exists i :: 0 <= i < |s| && IsUpper(s[i]) }

  predicate HasLower(s: string) { exists i :: 0 <= i < |s| && IsLower(s[i]) }

  predicate HasDigit(s: string) { exists i :: 0 <= i < |s| && IsDigit(s[i]) }

  /** `/[^A-Za-z0-9]/`: some character that is neither letter nor digit. */
  predicate HasSymbol(s: string) {
    exists i :: 0 <= i < |s| && !IsUpper(s[i]) && !IsLower(s[i]) && !IsDigit(s[i])
  }

  function Bit(b: bool): nat { if b then 1 else 0 }

  /** The points one password earns: up to 2 for its length and one for
      each character class it uses. */
  function Points(pw: string): (p: nat)
    ensures p <= 6
    ensures p == 6 <==> |pw| >= 12 && HasUpper(pw) && HasLower(pw) && HasDigit(pw) && HasSymbol(pw)
    ensures |pw| < 8 ==> p <= 4
  {
    (if |pw| >= 12 then 2 else if |pw| >= 8 then 1 else 0)
    + Bit(HasUpper(pw)) + Bit(HasLower(pw)) + Bit(HasDigit(pw)) + Bit(HasSymbol(pw))
  }

  /** The points of all passwords, the sum the page accumulates. */
  function TotalPoints(ps: seq<Password>): (t: nat)
    ensures t <= 6 * |ps|
  {
    if ps == [] then 0 else TotalPoints(ps[..|ps| - 1]) + Points(ps[|ps| - 1].password)
  }

  /** `Math.round(num / den)` for a non-negative fraction: halves round up. */
  function Round(num: nat, den: nat): nat
    requires den > 0
  {
    (2 * num + den) / (2 * den)
  }

  lemma RoundIsNearest(num: nat, den: nat)
    requires den > 0
    ensures 2 * num <= 2 * den * Round(num, den) + den
    ensures 2 * den * Round(num, den) + den <= 2 * num + 2 * den
  {
  }

  /** The score the page shows: `min(round(100 * total / (6 * count)), 100)`,
      and 0 when there are no passwords. */
  function SecurityScore(ps: seq<Password>): (s: nat)
    ensures s <= 100
    ensures ps == [] ==> s == 0
  {
    if ps == [] then 0
    else
      var r := Round(100 * TotalPoints(ps), 6 * |ps|);
      if r < 100 then r else 100
  }

  /** The cap at 100 never takes effect: the rounded percentage is at most 100
      already, because no password earns more than 6 points. */
  lemma CapNeverApplies(ps: seq<Password>)
    requires ps != []
    ensures Round(100 * TotalPoints(ps), 6 * |ps|) <= 100
    ensures SecurityScore(ps) == Round(100 * TotalPoints(ps), 6 * |ps|)
  {
    var n := |ps|;
    var t := TotalPoints(ps);
    var num, den := 2 * (100 * t) + 6 * n, 12 * n;
    assert num < 101 * den;
    DivBelow(num, den, 101);
    assert Round(100 * t, 6 * n) == num / den;
  }

  lemma MulNegative(d: int, b: int)
    requires b > 0 && d * b < 0
    ensures d < 0
  {
  }

  lemma MulZero(d: int, b: int)
    requires b > 0 && -b < d * b < b
    ensures d == 0
  {
  }

  lemma DivBelow(a: nat, b: nat, k: nat)
    requires b > 0 && a < k * b
    ensures a / b < k
  {
    var q, r := a / b, a % b;
    assert a == q * b + r;
    assert (q - k) * b == q * b - k * b;
    MulNegative(q - k, b);
  }

  /** Every password earning all 6 points gives exactly 100. */
  lemma {:induction false} AllStrongScoresHundred(ps: seq<Password>)
    requires ps != []
    requires forall i :: 0 <= i < |ps| ==> Points(ps[i].password) == 6
    ensures SecurityScore(ps) == 100
  {
    AllSixTotal(ps);
    var n := |ps|;
    assert 2 * (100 * (6 * n)) + 6 * n == 100 * (12 * n) + 6 * n;
    assert 100 * (12 * n) <= 100 * (12 * n) + 6 * n < 101 * (12 * n);
    DivBetween(100 * (12 * n) + 6 * n, 12 * n, 100);
  }

  lemma DivBetween(a: nat, b: nat, k: nat)
    requires b > 0 && k * b <= a < (k + 1) * b
    ensures a / b == k
  {
    var q, r := a / b, a % b;
    assert a == q * b + r;
    assert (q - k) * b == q * b - k * b;
    assert (k + 1) * b == k * b + b;
    MulZero(q - k, b);
  }

  lemma {:induction false} AllSixTotal(ps: seq<Password>)
    requires forall i :: 0 <= i < |ps| ==> Points(ps[i].password) == 6
    ensures TotalPoints(ps) == 6 * |ps|
  {
    if ps != [] {
      AllSixTotal(ps[..|ps| - 1]);
    }
  }

  /** `calculateSecurityScore`: the `forEach` accumulation of points. */
  method CalculateSecurityScore(ps: seq<Password>) returns (result: nat)
    ensures result == SecurityScore(ps)
  {
    if |ps| == 0 {
      return 0;
    }
    var score := 0;
    for i := 0 to |ps|
      invariant score == TotalPoints(ps[..i])
    {
      var pw := ps[i].password;
      ghost var before := score;
      if |pw| >= 12 {
        score := score + 2;
      } else if |pw| >= 8 {
        score := score + 1;
      }
      if HasUpper(pw) { score := score + 1; }
      if HasLower(pw) { score := score + 1; }
      if HasDigit(pw) { score := score + 1; }
      if HasSymbol(pw) { score := score + 1; }
      assert score == before + Points(pw);
      assert ps[..i + 1][..i] == ps[..i];
    }
    assert ps[..|ps|] == ps;
    var maxScore := |ps| * 6;
    assert maxScore == 6 * |ps|;
    var rounded := Round(100 * score, maxScore);
    result := if rounded < 100 then rounded else 100;
  }

  // ---- the session code ----

  /** `checkOneTimeCode`: a code is generated only when none is cached and
      none has been shown. */
  predicate ShouldGenerateCode(oneTimeCode: Option<string>, shown: bool) {
    !Truthy(oneTimeCode) && !shown
  }

  /** A generated code is never empty, so the check does not fire again. */
  lemma GeneratedCodeStopsRegeneration(draw: AuthStore.Draw, shown: bool)
    ensures !ShouldGenerateCode(Some(AuthStore.CodeFromDraw(draw)), shown)
  {
  }

  // ---- recent items ----

  /** `slice(0, 5)`: at most the first five entries, in store order. */
  function Recent<T>(s: seq<T>): (r: seq<T>)
    ensures |r| == if |s| < 5 then |s| else 5
    ensures r == s[..|r|]
  {
    if |s| < 5 then s else s[..5]
  }

  class Dashboard {
    const auth: AuthStore.AuthStore
    var showOneTimeCodeModal: bool

    constructor (auth: AuthStore.AuthStore)
      ensures this.auth == auth && !showOneTimeCodeModal
    {
      this.auth := auth;
      showOneTimeCodeModal := false;
    }

    /** `checkOneTimeCode`, run whenever the code or its flag changes. */
    method CheckOneTimeCode(draw: AuthStore.Draw)
      modifies this, auth
      ensures ShouldGenerateCode(old(auth.oneTimeCode), old(auth.oneTimeCodeShown)) ==>
        auth.oneTimeCode == Some(AuthStore.CodeFromDraw(draw)) && showOneTimeCodeModal
      ensures !ShouldGenerateCode(old(auth.oneTimeCode), old(auth.oneTimeCodeShown)) ==>
        (&& auth.oneTimeCode == old(auth.oneTimeCode) && auth.oneTimeCodeShown == old(auth.oneTimeCodeShown)
         && showOneTimeCodeModal == old(showOneTimeCodeModal))
      ensures auth.user == old(auth.user) && auth.session == old(auth.session)
    {
      if !Truthy(auth.oneTimeCode) && !auth.oneTimeCodeShown {
        auth.GenerateOneTimeCode(draw);
        showOneTimeCodeModal := true;
      }
    }

    /** `handleCloseOneTimeCodeModal`: mark the code shown, close the modal. */
    method HandleCloseOneTimeCodeModal(updateError: Option<string>)
      modifies this, auth
      ensures !showOneTimeCodeModal
      ensures auth.oneTimeCodeShown == (old(auth.oneTimeCodeShown) || (auth.user.Some? && updateError.None?))
      ensures auth.oneTimeCode == old(auth.oneTimeCode) && auth.user == old(auth.user)
    {
      auth.MarkOneTimeCodeAsShown(updateError);
      showOneTimeCodeModal := false;
    }
  }
}
