/** src/data/degrees.js: the course catalogue `DEGREES` and
    `prefixesForDegree`, which lists the letter prefixes of a degree's course
    codes for the filter tabs. */
module Degrees {
  import opened Js

  datatype Course = Course(code: string, name: string)

  const Mechanical: seq<Course> := [
    Course("CIVL1100", "Fundamentals of Engineering Mechanics"),
    Course("ELEC1310", "Introduction to Electrical Engineering"),
    Course("ENGG1003", "Introduction to Procedural Programming"),
    Course("ENGG1500", "Introduction to Professional Engineering"),
    Course("MATH1110", "Mathematics for Engineering, Science and Technology 1"),
    Course("MATH1120", "Mathematics for Engineering, Science and Technology 2"),
    Course("MECH1110", "Introduction to Mechanical Engineering Design"),
    Course("MECH1750", "Engineering Materials 1"),
    Course("ENGG2100", "Engineering Risk and Uncertainty"),
    Course("ENGG2300", "Engineering Fluid Mechanics"),
    Course("ENGG2440", "Modelling and Control"),
    Course("ENGG2500", "Sustainable Engineering Practice"),
    Course("MATH2310", "Calculus of Science and Engineering"),
    Course("MECH2110", "Mechanical Engineering Design 1"),
    Course("MECH2360", "Dynamics of Machines"),
    Course("MECH2430", "Mechanics of Solids 1"),
    Course("ENGG3000", "Engineering Work Integrated Learning"),
    Course("ENGG3050", "Work Experience in Industry"),
    Course("ENGG3300", "Machine Learning for Engineers"),
    Course("ENGG3500", "Managing Engineering Projects"),
    Course("MECH3110", "Mechanical Engineering Design 2"),
    Course("MECH3400", "Materials Science and Engineering 2"),
    Course("MECH3695", "Heat Transfer"),
    Course("MECH3720", "Thermodynamics"),
    Course("MECH3780", "Fluid Mechanics 2 and CFD"),
    Course("MECH4410", "Mechanics of Solids 2 and FEA"),
    Course("MECH4841A", "Mechanical Engineering Project A"),
    Course("MECH4841B", "Mechanical Engineering Project B")
  ]

  const Mechatronics: seq<Course> := [
    Course("CIVL1100", "Fundamentals of Engineering Mechanics"),
    Course("ELEC1310", "Introduction to Electrical Engineering"),
    Course("ELEC1710", "Digital and Computer Electronics 1"),
    Course("ENGG1003", "Introduction to Procedural Programming"),
    Course("ENGG1500", "Introduction to Professional Engineering"),
    Course("MATH1110", "Mathematics for Engineering, Science and Technology 1"),
    Course("MATH1120", "Mathematics for Engineering, Science and Technology 2"),
    Course("MECH1110", "Introduction to Mechanical Engineering Design"),
    Course("MECH1750", "Engineering Materials 1"),
    Course("ELEC2320", "Electrical and Electronic Circuits"),
    Course("ELEC2430", "Circuits and Signals"),
    Course("ENGG2100", "Engineering Risk and Uncertainty"),
    Course("ENGG2300", "Engineering Fluid Mechanics"),
    Course("ENGG2440", "Modelling and Control"),
    Course("ENGG2500", "Sustainable Engineering Practice"),
    Course("MATH2310", "Calculus of Science and Engineering"),
    Course("MECH2110", "Mechanical Engineering Design 1"),
    Course("MECH2360", "Dynamics of Machines"),
    Course("AERO3600", "Embedded Control Systems"),
    Course("ENGG3000", "Engineering Work Integrated Learning"),
    Course("ENGG3050", "Work Experience in Industry"),
    Course("ENGG3300", "Machine Learning for Engineers"),
    Course("ENGG3500", "Managing Engineering Projects"),
    Course("MCHA3400", "Embedded Systems Engineering"),
    Course("MCHA3500", "Mechatronics Design 1"),
    Course("ENGG4801A", "Engineering Final Year Project A"),
    Course("ENGG4801B", "Engineering Final Year Project B"),
    Course("MCHA4100", "Mechatronics Systems"),
    Course("MCHA4400", "Vision-based Navigation")
  ]

  /** `DEGREES` */
  const Catalogue: map<string, seq<Course>> := map["Mechanical" := Mechanical, "Mechatronics" := Mechatronics]

  /** `DEGREES[name] || []` */
  function CoursesOf(name: string): (list: seq<Course>)
    ensures name !in Catalogue ==> list == []
  {
    if name in Catalogue then Catalogue[name] else []
  }

  predicate IsUpper(c: char)
  {
    'A' <= c <= 'Z'
  }

  /** What `/^[A-Z]+/` matches at the start of `s`; "" stands for no match. */
  function LeadingCaps(s: string): (r: string)
    ensures |r| <= |s| && r == s[..|r|]
    ensures forall i | 0 <= i < |r| :: IsUpper(r[i])
    ensures |r| == |s| || !IsUpper(s[|r|])
  {
    if s == [] || !IsUpper(s[0]) then "" else [s[0]] + LeadingCaps(s[1..])
  }

  /** JavaScript's default `sort()` order: code unit by code unit, a proper
      prefix first. */
  predicate Before(a: string, b: string)
    decreases |a|
  {
    |b| > 0 && (|a| == 0 || a[0] < b[0] || (a[0] == b[0] && Before(a[1..], b[1..])))
  }

  lemma {:induction false} BeforeIrreflexive(a: string)
    ensures !Before(a, a)
    decreases |a|
  {
    if |a| > 0 {
      BeforeIrreflexive(a[1..]);
    }
  }

  lemma {:induction false} BeforeTransitive(a: string, b: string, c: string)
    requires Before(a, b) && Before(b, c)
    ensures Before(a, c)
    decreases |a|
  {
    if |a| > 0 && a[0] == b[0] && b[0] == c[0] {
      BeforeTransitive(a[1..], b[1..], c[1..]);
    }
  }

  lemma {:induction false} BeforeTotal(a: string, b: string)
    requires a != b
    ensures Before(a, b) || Before(b, a)
    decreases |a|
  {
    if |a| > 0 && |b| > 0 && a[0] == b[0] {
      assert a == [a[0]] + a[1..] && b == [b[0]] + b[1..];
      BeforeTotal(a[1..], b[1..]);
    }
  }

  lemma BeforeAsymmetric(a: string, b: string)
    requires Before(a, b)
    ensures !Before(b, a)
  {
    if Before(b, a) {
      BeforeTransitive(a, b, a);
      BeforeIrreflexive(a);
    }
  }

  /** Sorted and without duplicates. */
  predicate Increasing(s: seq<string>)
  {
    forall i, j | 0 <= i < j < |s| :: Before(s[i], s[j])
  }

  /** Adds `x` to a sorted, duplicate-free list, keeping it so. */
  function Insert(x: string, s: seq<string>): (r: seq<string>)
    requires Increasing(s)
    ensures Increasing(r)
    ensures forall y :: y in r <==> y == x || y in s
    decreases |s|
  {
    if s == [] then [x]
    else if x == s[0] then s
    else if Before(x, s[0]) then
      assert forall j | 0 <= j < |s| :: Before(x, s[j]) by {
        forall j | 0 <= j < |s| ensures Before(x, s[j]) {
          if j > 0 { BeforeTransitive(x, s[0], s[j]); }
        }
      }
      [x] + s
    else
      BeforeTotal(x, s[0]);
      var rest := Insert(x, s[1..]);
      assert forall y | y in rest :: Before(s[0], y);
      [s[0]] + rest
  }

  /** Two sorted, duplicate-free lists with the same members are the same
      list: a sorted set has one order. */
  lemma {:induction false} IncreasingUnique(s: seq<string>, t: seq<string>)
    requires Increasing(s) && Increasing(t)
    requires forall y :: y in s <==> y in t
    ensures s == t
    decreases |s|
  {
    assert s == [] <==> t == [] by {
      if s != [] { assert s[0] in s; }
      if t != [] { assert t[0] in t; }
    }
    if s != [] {
      assert s[0] == t[0] by {
        assert s[0] in s && t[0] in t;
        if s[0] != t[0] {
          BeforeTotal(s[0], t[0]);
          if Before(s[0], t[0]) {
            var j :| 0 <= j < |t| && t[j] == s[0];
            BeforeAsymmetric(t[0], t[j]);
          }
        }
      }
      forall y ensures y in s[1..] <==> y in t[1..] {
        if y in s[1..] {
          var i :| 1 <= i < |s| && s[i] == y;
          BeforeIrreflexive(y);
          assert y in s;
          assert y in t;
          var k :| 0 <= k < |t| && t[k] == y;
          assert k != 0;
          assert t[1..][k - 1] == y;
        }
        if y in t[1..] {
          var i :| 1 <= i < |t| && t[i] == y;
          BeforeIrreflexive(y);
          assert y in t;
          assert y in s;
          var k :| 0 <= k < |s| && s[k] == y;
          assert k != 0;
          assert s[1..][k - 1] == y;
        }
      }
      IncreasingUnique(s[1..], t[1..]);
    }
  }

  /** `Array.from(new Set(list.map(c => c.code.match(/^[A-Z]+/)[0]))).sort()`;
      None when some code has no leading capital, where the match is null and
      indexing it throws. */
  function SortedPrefixes(list: seq<Course>): (r: Option<seq<string>>)
    ensures r.Some? <==> forall i | 0 <= i < |list| :: LeadingCaps(list[i].code) != ""
    ensures r.Some? ==> Increasing(r.value)
    ensures r.Some? ==>
              forall p :: p in r.value <==> exists i | 0 <= i < |list| :: LeadingCaps(list[i].code) == p
    decreases |list|
  {
    if list == [] then Some([])
    else
      var run := LeadingCaps(list[0].code);
      var rest := SortedPrefixes(list[1..]);
      if run == "" || rest.None? then
        assert rest.None? ==> exists i | 1 <= i < |list| :: LeadingCaps(list[i].code) == "" by {
          if rest.None? {
            var k :| 0 <= k < |list[1..]| && LeadingCaps(list[1..][k].code) == "";
            assert LeadingCaps(list[k + 1].code) == "";
          }
        }
        None
      else
        var r := Insert(run, rest.value);
        assert forall p :: p in r <==> exists i | 0 <= i < |list| :: LeadingCaps(list[i].code) == p by {
          forall p ensures p in r <==> exists i | 0 <= i < |list| :: LeadingCaps(list[i].code) == p {
            if p in rest.value {
              var k :| 0 <= k < |list[1..]| && LeadingCaps(list[1..][k].code) == p;
              assert LeadingCaps(list[k + 1].code) == p;
            }
            if exists i | 0 <= i < |list| :: LeadingCaps(list[i].code) == p {
              var i :| 0 <= i < |list| && LeadingCaps(list[i].code) == p;
              if i > 0 {
                assert LeadingCaps(list[1..][i - 1].code) == p;
              }
            }
          }
        }
        Some(r)
  }

  /** `prefixesForDegree(name)` */
  function PrefixesForDegree(name: string): Option<seq<string>>
  {
    SortedPrefixes(CoursesOf(name))
  }

  /** The result is the one sorted, duplicate-free list of the degree's code
      prefixes; an unknown degree has none. */
  lemma PrefixesForDegreeSpec(name: string, sorted: seq<string>)
    requires PrefixesForDegree(name).Some?
    requires Increasing(sorted)
    requires forall p :: p in sorted <==> exists c | c in CoursesOf(name) :: LeadingCaps(c.code) == p
    ensures PrefixesForDegree(name) == Some(sorted)
  {
    var list := CoursesOf(name);
    var r := PrefixesForDegree(name).value;
    forall p ensures p in r <==> p in sorted {
      if p in sorted {
        var c :| c in list && LeadingCaps(c.code) == p;
        var i :| 0 <= i < |list| && list[i] == c;
      }
      if p in r {
        var i :| 0 <= i < |list| && LeadingCaps(list[i].code) == p;
        assert list[i] in list;
      }
    }
    IncreasingUnique(r, sorted);
  }

  lemma UnknownDegreeHasNoPrefixes(name: string)
    requires name !in Catalogue
    ensures PrefixesForDegree(name) == Some([])
  {
  }

  /** The shape every catalogue code has: four capitals, four digits, and an
      optional trailing capital (MECH4841A). */
  predicate CodeShape(code: string)
  {
    && (|code| == 8 || |code| == 9)
    && (forall i | 0 <= i < 4 :: IsUpper(code[i]))
    && (forall i | 4 <= i < 8 :: IsDigit(code[i]))
    && (|code| == 9 ==> IsUpper(code[8]))
  }

  /** On a code of that shape `/^[A-Z]+/` matches exactly its four letters. */
  lemma ShapedCodeRun(code: string)
    requires CodeShape(code)
    ensures LeadingCaps(code) == code[..4]
  {
    assert code[4..][0] == code[4];
    assert LeadingCaps(code[4..]) == "";
    assert code[3..][1..] == code[4..];
    assert LeadingCaps(code[3..]) == [code[3]];
    assert code[2..][1..] == code[3..];
    assert LeadingCaps(code[2..]) == [code[2], code[3]];
    assert code[1..][1..] == code[2..];
    assert LeadingCaps(code[1..]) == [code[1], code[2], code[3]];
  }

  /** Every code of the Mechanical list has the catalogue shape. */
  lemma MechanicalCodesShaped()
    ensures forall i | 0 <= i < |Mechanical| :: CodeShape(Mechanical[i].code)
  {
    forall i | 0 <= i < |Mechanical| ensures CodeShape(Mechanical[i].code) {
      var c := Mechanical[i].code;
      assert |c| == 8 || |c| == 9;
      assert IsUpper(c[0]) && IsUpper(c[1]) && IsUpper(c[2]) && IsUpper(c[3]);
      assert IsDigit(c[4]) && IsDigit(c[5]) && IsDigit(c[6]) && IsDigit(c[7]);
      assert |c| == 9 ==> IsUpper(c[8]);
    }
  }

  /** Every code of the Mechatronics list has the catalogue shape. */
  lemma MechatronicsCodesShaped()
    ensures forall i | 0 <= i < |Mechatronics| :: CodeShape(Mechatronics[i].code)
  {
    forall i | 0 <= i < |Mechatronics| ensures CodeShape(Mechatronics[i].code) {
      var c := Mechatronics[i].code;
      assert |c| == 8 || |c| == 9;
      assert IsUpper(c[0]) && IsUpper(c[1]) && IsUpper(c[2]) && IsUpper(c[3]);
      assert IsDigit(c[4]) && IsDigit(c[5]) && IsDigit(c[6]) && IsDigit(c[7]);
      assert |c| == 9 ==> IsUpper(c[8]);
    }
  }

  /** For every degree name, `prefixesForDegree` never throws: every code in
      `DEGREES` starts with a capital. */
  lemma CataloguePrefixesDefined(name: string)
    ensures PrefixesForDegree(name).Some?
  {
    MechanicalCodesShaped();
    MechatronicsCodesShaped();
    var list := CoursesOf(name);
    forall i | 0 <= i < |list| ensures LeadingCaps(list[i].code) != "" {
      ShapedCodeRun(list[i].code);
    }
  }

  /** The prefixes of a list are the given sorted list when that list holds
      exactly the lists' leading runs, none of them empty. */
  lemma PrefixesAre(list: seq<Course>, expected: seq<string>)
    requires Increasing(expected)
    requires forall i | 0 <= i < |list| :: LeadingCaps(list[i].code) != "" && LeadingCaps(list[i].code) in expected
    requires forall p | p in expected :: exists i | 0 <= i < |list| :: LeadingCaps(list[i].code) == p
    ensures SortedPrefixes(list) == Some(expected)
  {
    IncreasingUnique(SortedPrefixes(list).value, expected);
  }

  const MechanicalPrefixes := ["CIVL", "ELEC", "ENGG", "MATH", "MECH"]
  const MechatronicsPrefixes := ["AERO", "CIVL", "ELEC", "ENGG", "MATH", "MCHA", "MECH"]

  /** The first four characters of every Mechanical code are one of its tabs. */
  lemma MechanicalStems()
    ensures forall i | 0 <= i < |Mechanical| :: Mechanical[i].code[..4] in MechanicalPrefixes
  {
    forall i | 0 <= i < |Mechanical| ensures Mechanical[i].code[..4] in MechanicalPrefixes {
      var c := Mechanical[i].code;
      assert c[..4] == [c[0], c[1], c[2], c[3]];
    }
  }

  /** The first four characters of every Mechatronics code are one of its tabs. */
  lemma MechatronicsStems()
    ensures forall i | 0 <= i < |Mechatronics| :: Mechatronics[i].code[..4] in MechatronicsPrefixes
  {
    forall i | 0 <= i < |Mechatronics| ensures Mechatronics[i].code[..4] in MechatronicsPrefixes {
      var c := Mechatronics[i].code;
      assert c[..4] == [c[0], c[1], c[2], c[3]];
    }
  }

  /** The runs of a list of shaped codes are their first four characters. */
  lemma ShapedRuns(list: seq<Course>)
    requires forall i | 0 <= i < |list| :: CodeShape(list[i].code)
    ensures forall i | 0 <= i < |list| :: 4 <= |list[i].code| && LeadingCaps(list[i].code) == list[i].code[..4]
  {
    forall i | 0 <= i < |list| ensures 4 <= |list[i].code| && LeadingCaps(list[i].code) == list[i].code[..4] {
      ShapedCodeRun(list[i].code);
    }
  }

  /** A list of shaped codes whose four-letter stems all lie in a sorted
      list, each entry of which some code has, yields that list as its tabs. */
  lemma StemsArePrefixes(list: seq<Course>, expected: seq<string>, wit: seq<nat>)
    requires forall i | 0 <= i < |list| :: CodeShape(list[i].code)
    requires forall i | 0 <= i < |list| :: 4 <= |list[i].code| && list[i].code[..4] in expected
    requires Increasing(expected) && |wit| == |expected|
    requires forall k | 0 <= k < |wit| :: wit[k] < |list| && 4 <= |list[wit[k]].code| && list[wit[k]].code[..4] == expected[k]
    ensures SortedPrefixes(list) == Some(expected)
  {
    ShapedRuns(list);
    forall p | p in expected
      ensures exists i | 0 <= i < |list| :: LeadingCaps(list[i].code) == p
    {
      var k :| 0 <= k < |expected| && expected[k] == p;
      assert LeadingCaps(list[wit[k]].code) == p;
    }
    PrefixesAre(list, expected);
  }

  lemma MechanicalWitnesses()
    ensures forall k | 0 <= k < 5 :: [0, 1, 2, 4, 6][k] < |Mechanical| && Mechanical[[0, 1, 2, 4, 6][k]].code[..4] == MechanicalPrefixes[k]
  {
    var wit := [0, 1, 2, 4, 6];
    forall k | 0 <= k < 5 ensures wit[k] < |Mechanical| && Mechanical[wit[k]].code[..4] == MechanicalPrefixes[k] {
      var c := Mechanical[wit[k]].code;
      assert c[..4] == [c[0], c[1], c[2], c[3]];
    }
  }

  lemma MechatronicsWitnesses()
    ensures forall k | 0 <= k < 7 :: [18, 0, 1, 3, 5, 23, 7][k] < |Mechatronics| && Mechatronics[[18, 0, 1, 3, 5, 23, 7][k]].code[..4] == MechatronicsPrefixes[k]
  {
    var wit := [18, 0, 1, 3, 5, 23, 7];
    forall k | 0 <= k < 7 ensures wit[k] < |Mechatronics| && Mechatronics[wit[k]].code[..4] == MechatronicsPrefixes[k] {
      var c := Mechatronics[wit[k]].code;
      assert c[..4] == [c[0], c[1], c[2], c[3]];
    }
  }

  /** `prefixesForDegree("Mechanical")` is CIVL, ELEC, ENGG, MATH, MECH. */
  lemma MechanicalTabs()
    ensures PrefixesForDegree("Mechanical") == Some(MechanicalPrefixes)
  {
    assert Increasing(MechanicalPrefixes);
    MechanicalCodesShaped();
    MechanicalStems();
    MechanicalWitnesses();
    StemsArePrefixes(Mechanical, MechanicalPrefixes, [0, 1, 2, 4, 6]);
  }

  /** `prefixesForDegree("Mechatronics")` is AERO, CIVL, ELEC, ENGG, MATH,
      MCHA, MECH. */
  lemma MechatronicsTabs()
    ensures PrefixesForDegree("Mechatronics") == Some(MechatronicsPrefixes)
  {
    assert Increasing(MechatronicsPrefixes);
    MechatronicsCodesShaped();
    MechatronicsStems();
    MechatronicsWitnesses();
    StemsArePrefixes(Mechatronics, MechatronicsPrefixes, [18, 0, 1, 3, 5, 23, 7]);
  }
}
