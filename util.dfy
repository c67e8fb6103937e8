/**
 * `titleCaseDomain` from lib/util.ts: split a domain name on `.`, upper-case
 * the first character of every label, and concatenate the labels. It builds
 * construct identifiers such as `ZoneExampleCom` from `example.com`.
 *
 * In the source an empty label makes `part[0]` undefined and the call throws;
 * here that is the `None` result.
 */
module Util {
  import opened Common

  /** `String.prototype.toUpperCase` on one character, for ASCII letters. */
  function UpperCase(c: char): (u: char)
    ensures !('a' <= u <= 'z')
    ensures !('a' <= c <= 'z') ==> u == c
    ensures u == '.' <==> c == '.'
  {
    if 'a' <= c <= 'z' then (c as int - 32) as char else c
  }

  /** `s.split(".")`: the maximal dot-free pieces between dots, always at least one. */
  function Split(s: string): (labels: seq<string>)
    ensures |labels| >= 1
    ensures forall i :: 0 <= i < |labels| ==> '.' !in labels[i]
  {
    if s == [] then [[]]
    else
      var rest := Split(s[1..]);
      if s[0] == '.' then [[]] + rest
      else [[s[0]] + rest[0]] + rest[1..]
  }

  /** `labels.join(".")`, the inverse of `Split`. */
  function Join(labels: seq<string>): string
    requires |labels| >= 1
  {
    if |labels| == 1 then labels[0] else labels[0] + "." + Join(labels[1..])
  }

  predicate NoEmptyLabel(labels: seq<string>)
  {
    forall i :: 0 <= i < |labels| ==> labels[i] != []
  }

  /** Every dot in `s` is directly followed by a character that is not a dot. */
  predicate DotsFollowed(s: string)
  {
    forall k :: 0 <= k < |s| && s[k] == '.' ==> k + 1 < |s| && s[k + 1] != '.'
  }

  /** A domain without empty labels: non-empty, no leading dot, no trailing
      dot, no two dots in a row. */
  predicate WellFormedDomain(s: string)
  {
    s != [] && s[0] != '.' && DotsFollowed(s)
  }

  function CountDots(s: string): nat
  {
    if s == [] then 0 else (if s[0] == '.' then 1 else 0) + CountDots(s[1..])
  }

  function TotalLength(labels: seq<string>): nat
  {
    if labels == [] then 0 else |labels[0]| + TotalLength(labels[1..])
  }

  /** The callback of the `map`: the first character is no longer a lower-case
      letter, the rest is unchanged, and a label already capitalised is kept. */
  function Capitalize(part: string): (r: string)
    requires part != []
    ensures |r| == |part| && r[1..] == part[1..]
    ensures !('a' <= r[0] <= 'z')
    ensures '.' !in part ==> '.' !in r
    ensures UpperCase(part[0]) == part[0] ==> r == part
  {
    [UpperCase(part[0])] + part[1..]
  }

  /** `map(Capitalize).join("")`: defined exactly when no label is empty (an
      empty label throws), and as long as the labels together. */
  function TitleCaseLabels(labels: seq<string>): (r: Option<string>)
    ensures r.Some? <==> NoEmptyLabel(labels)
    ensures r.Some? ==> |r.value| == TotalLength(labels)
  {
    if labels == [] then Some([])
    else
      NoEmptyLabelUnfold(labels);
      if labels[0] == [] then None
      else match TitleCaseLabels(labels[1..])
        case None => None
        case Some(t) => Some(Capitalize(labels[0]) + t)
  }

  /** `titleCaseDomain`: it returns exactly when the name has no empty label,
      and then the result has no dot and is the name's length minus its dots. */
  function TitleCaseDomain(domain: string): (r: Option<string>)
    ensures r.Some? <==> WellFormedDomain(domain)
    ensures r.Some? ==> '.' !in r.value && |r.value| == |domain| - CountDots(domain)
  {
    DomainLabelsDefined(domain);
    DomainLabelsShape(domain);
    TitleCaseLabels(Split(domain))
  }

  lemma NoEmptyLabelUnfold(labels: seq<string>)
    requires labels != []
    ensures NoEmptyLabel(labels) <==> labels[0] != [] && NoEmptyLabel(labels[1..])
  {
    if labels[0] != [] && NoEmptyLabel(labels[1..]) {
      forall i | 0 <= i < |labels| ensures labels[i] != [] {
        if i > 0 { assert labels[i] == labels[1..][i - 1]; }
      }
    }
  }

  // ---------------------------------------------------------------------
  // Split and Join are inverse to each other

  lemma {:induction false} JoinSplit(s: string)
    ensures Join(Split(s)) == s
  {
    if s != [] {
      var rest := Split(s[1..]);
      JoinSplit(s[1..]);
      if s[0] != '.' && |rest| > 1 {
        assert Join(rest) == rest[0] + "." + Join(rest[1..]);
        assert Split(s)[1..] == rest[1..];
      }
    }
  }

  lemma {:induction false} SplitDotFree(a: string)
    requires '.' !in a
    ensures Split(a) == [a]
  {
    if a != [] {
      SplitDotFree(a[1..]);
      assert [a[0]] + a[1..] == a;
    }
  }

  lemma {:induction false} SplitAfterLabel(a: string, t: string)
    requires '.' !in a
    ensures Split(a + "." + t) == [a] + Split(t)
  {
    if a == [] {
      assert ([] + "." + t)[1..] == t;
    } else {
      var s := a + "." + t;
      assert s[0] == a[0] && s[1..] == a[1..] + "." + t;
      SplitAfterLabel(a[1..], t);
      assert [a[0]] + a[1..] == a;
    }
  }

  lemma {:induction false} SplitJoin(labels: seq<string>)
    requires |labels| >= 1
    requires forall i :: 0 <= i < |labels| ==> '.' !in labels[i]
    ensures Split(Join(labels)) == labels
  {
    if |labels| == 1 {
      SplitDotFree(labels[0]);
    } else {
      SplitJoin(labels[1..]);
      SplitAfterLabel(labels[0], Join(labels[1..]));
    }
  }

  // ---------------------------------------------------------------------
  // When titleCaseDomain throws

  /** Every label after the first is non-empty exactly when every dot has a
      non-dot character after it. */
  lemma {:induction false} LaterLabelsNonEmpty(s: string)
    ensures NoEmptyLabel(Split(s)[1..]) <==> DotsFollowed(s)
  {
    if s != [] {
      var t := s[1..];
      LaterLabelsNonEmpty(t);
      if s[0] == '.' {
        assert Split(s)[1..] == Split(t);
        assert NoEmptyLabel(Split(t)) <==> Split(t)[0] != [] && NoEmptyLabel(Split(t)[1..]);
        assert Split(t)[0] != [] <==> t != [] && t[0] != '.';
        assert DotsFollowed(s) <==> (t != [] && t[0] != '.') && DotsFollowed(t) by {
          if DotsFollowed(s) {
            forall k | 0 <= k < |t| && t[k] == '.' ensures k + 1 < |t| && t[k + 1] != '.' {
              assert s[k + 1] == '.';
            }
          }
          if t != [] && t[0] != '.' && DotsFollowed(t) {
            forall k | 0 <= k < |s| && s[k] == '.' ensures k + 1 < |s| && s[k + 1] != '.' {
              if k > 0 { assert t[k - 1] == '.'; }
            }
          }
        }
      } else {
        assert Split(s)[1..] == Split(t)[1..];
        assert DotsFollowed(s) <==> DotsFollowed(t) by {
          if DotsFollowed(s) {
            forall k | 0 <= k < |t| && t[k] == '.' ensures k + 1 < |t| && t[k + 1] != '.' {
              assert s[k + 1] == '.';
            }
          }
          if DotsFollowed(t) {
            forall k | 0 <= k < |s| && s[k] == '.' ensures k + 1 < |s| && s[k + 1] != '.' {
              assert k > 0 && t[k - 1] == '.';
            }
          }
        }
      }
    }
  }

  /** The labels of a name are all non-empty, so the map-and-join returns,
      exactly when the name is non-empty and has no leading dot, no trailing
      dot and no two dots in a row. */
  lemma DomainLabelsDefined(domain: string)
    ensures TitleCaseLabels(Split(domain)).Some? <==> WellFormedDomain(domain)
  {
    NoEmptyLabelUnfold(Split(domain));
    LaterLabelsNonEmpty(domain);
  }

  // ---------------------------------------------------------------------
  // Shape of the result

  lemma {:induction false} TitleCaseLabelsShape(labels: seq<string>, r: string)
    requires forall i :: 0 <= i < |labels| ==> '.' !in labels[i]
    requires TitleCaseLabels(labels) == Some(r)
    ensures '.' !in r
    ensures labels != [] ==> r != [] && !('a' <= r[0] <= 'z')
  {
    if labels != [] {
      var t := TitleCaseLabels(labels[1..]).value;
      TitleCaseLabelsShape(labels[1..], t);
      assert r == Capitalize(labels[0]) + t;
    }
  }

  lemma {:induction false} SplitLength(s: string)
    ensures TotalLength(Split(s)) == |s| - CountDots(s)
  {
    if s != [] {
      SplitLength(s[1..]);
    }
  }

  /** The map-and-join of a name's labels has no dot, and is as long as the
      name without its dots. */
  lemma DomainLabelsShape(domain: string)
    ensures TitleCaseLabels(Split(domain)).Some? ==>
      var r := TitleCaseLabels(Split(domain)).value;
      '.' !in r && |r| == |domain| - CountDots(domain)
  {
    if TitleCaseLabels(Split(domain)).Some? {
      TitleCaseLabelsShape(Split(domain), TitleCaseLabels(Split(domain)).value);
      SplitLength(domain);
    }
  }

  /** A dot-free label whose first character is already upper-case comes back unchanged. */
  lemma CapitalizedLabelUnchanged(part: string)
    requires part != [] && '.' !in part
    requires UpperCase(part[0]) == part[0]
    ensures TitleCaseDomain(part) == Some(part)
  {
    SplitDotFree(part);
    assert [part][1..] == [];
    assert TitleCaseLabels([part][1..]) == Some([]);
    assert Capitalize(part) + [] == part;
  }

  /** Applying titleCaseDomain twice gives the same as applying it once. */
  lemma TitleCaseDomainIdempotent(domain: string, r: string)
    requires TitleCaseDomain(domain) == Some(r)
    ensures TitleCaseDomain(r) == Some(r)
  {
    var labels := Split(domain);
    TitleCaseLabelsShape(labels, r);
    assert labels[0] != [];
    CapitalizedLabelUnchanged(r);
  }
}
