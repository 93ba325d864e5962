/** The password strength meter (src/components/password-strength-meter.tsx): four
    requirement predicates, a score that counts the satisfied ones, a level chosen by
    comparing `score / 4` with 0.25, 0.5 and 0.75, and one bar per requirement. The
    comparisons use exact rationals, which agree with the source's floating point
    because every quotient `k / 4` and every threshold is a dyadic number. */
module PasswordStrength {
  import opened Wrappers
  import opened JsText

  datatype Requirement = Requirement(title: string, test: string -> bool)

  /** REQUIREMENTS, in the order the checklist shows them. */
  const Requirements: seq<Requirement> := [
    Requirement("Ít nhất 8 ký tự", (p: string) => Utf16Length(p) >= 8),
    Requirement("Có chữ hoa (A-Z)", (p: string) => HasUpper(p)),
    Requirement("Có chữ số (0-9)", (p: string) => HasDigit(p)),
    Requirement("Có ký tự đặc biệt (!@#...)", (p: string) => HasSpecial(p))
  ]

  /** The requirements' tests are the four predicates length, upper case, digit and
      special character, in that order. */
  lemma RequirementTests(p: string)
    ensures |Requirements| == 4
    ensures Requirements[0].test(p) == (Utf16Length(p) >= 8)
    ensures Requirements[1].test(p) == HasUpper(p)
    ensures Requirements[2].test(p) == HasDigit(p)
    ensures Requirements[3].test(p) == HasSpecial(p)
  {
  }

  /** `reqs.filter((r) => r.test(p)).length`: none passes exactly when the count is 0,
      all pass exactly when it is the number of requirements. */
  function PassedCount(reqs: seq<Requirement>, p: string): (n: nat)
    ensures n <= |reqs|
    ensures n == 0 <==> forall i :: 0 <= i < |reqs| ==> !reqs[i].test(p)
    ensures n == |reqs| <==> forall i :: 0 <= i < |reqs| ==> reqs[i].test(p)
    decreases |reqs|
  {
    if reqs == [] then 0
    else (if reqs[0].test(p) then 1 else 0) + PassedCount(reqs[1..], p)
  }

  datatype Strength = Strength(score: nat, level: string, color: string, bgColor: string)

  const Weak: string := "Yếu"
  const Medium: string := "Trung bình"
  const Strong: string := "Mạnh"

  /** The `useMemo` body: the meter's reading of `password`. The level is shown only
      for a non-empty password. */
  function Measure(password: string): (r: Strength)
    ensures r.score <= |Requirements|
    ensures password == [] <==> r.level == ""
  {
    if password == [] then Strength(0, "", "", "")
    else
      var passed := PassedCount(Requirements, password);
      var ratio := passed as real / |Requirements| as real;
      if ratio <= 0.25 then Strength(passed, Weak, "text-red-500", "bg-red-500")
      else if ratio <= 0.5 then Strength(passed, Weak, "text-red-500", "bg-red-500")
      else if ratio <= 0.75 then Strength(passed, Medium, "text-amber-500", "bg-amber-500")
      else Strength(passed, Strong, "text-emerald-500", "bg-emerald-500")
  }

  function Count(b: bool): nat { if b then 1 else 0 }

  /** Reference score: the number of the four requirements `p` meets. */
  function RequirementsMet(p: string): nat
  {
    Count(Utf16Length(p) >= 8) + Count(HasUpper(p)) + Count(HasDigit(p)) + Count(HasSpecial(p))
  }

  /** Reference level of a score: weak up to 2, medium at 3, strong at 4. */
  function LevelOf(score: nat): string
  {
    if score <= 2 then Weak else if score == 3 then Medium else Strong
  }

  /** Position of a level on the scale (the empty level of an empty password first). */
  function LevelRank(level: string): nat
  {
    if level == Weak then 1 else if level == Medium then 2 else if level == Strong then 3 else 0
  }

  /** The meter's score is the number of requirements met, at most 4, and its level is
      the reference level of that score; an empty password reads 0 with no level. */
  lemma MeasureSpec(password: string)
    ensures password == [] ==> Measure(password) == Strength(0, "", "", "")
    ensures password != [] ==>
      Measure(password).score == RequirementsMet(password) <= 4 &&
      Measure(password).level == LevelOf(Measure(password).score)
  {
    if password != [] {
      var rs := Requirements;
      assert rs[0].test(password) == (Utf16Length(password) >= 8);
      assert rs[1].test(password) == HasUpper(password);
      assert rs[2].test(password) == HasDigit(password);
      assert rs[3].test(password) == HasSpecial(password);
      var r1, r2, r3 := rs[1..], rs[2..], rs[3..];
      assert r1[1..] == r2 && r2[1..] == r3 && r3[1..] == [];
      assert PassedCount(r3, password) == Count(HasSpecial(password));
      assert PassedCount(r2, password) == Count(HasDigit(password)) + Count(HasSpecial(password));
      assert PassedCount(r1, password) ==
        Count(HasUpper(password)) + Count(HasDigit(password)) + Count(HasSpecial(password));
    }
  }

  /** A higher score never gives a lower level. */
  lemma LevelMonotone(s1: nat, s2: nat)
    requires s1 <= s2
    ensures 1 <= LevelRank(LevelOf(s1)) <= LevelRank(LevelOf(s2))
  {
  }

  /** The strength bar: nothing for an empty password, else one bar per requirement,
      bar `i` coloured when `i < score`. */
  function Bars(password: string): (r: Option<seq<string>>)
    ensures password == [] <==> r.None?
    ensures r.Some? ==> |r.value| == |Requirements|
    ensures r.Some? ==> forall i :: 0 <= i < |r.value| ==>
      (r.value[i] == Measure(password).bgColor <==> i < Measure(password).score)
  {
    if password == [] then None
    else
      var m := Measure(password);
      Some(seq(|Requirements|, i requires 0 <= i < |Requirements| =>
        if i < m.score then m.bgColor else "bg-muted"))
  }
}
