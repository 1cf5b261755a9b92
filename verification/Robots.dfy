/** The robots.txt rules of pkg/sitemap/urls.go: which rules a one-pass reader collects, and what they
    say about a URL (sections 2.2.1 to 2.2.3 of RFC 9309). Lines come already cut into name and value. A
    char of a pattern or a target stands for one byte, as lengths are compared in bytes. */
module Robots {
  import opened Wrappers

  /** `Other` is a line without a colon, or with any other name. */
  datatype Line = Agent(value: string) | Directive(allow: bool, value: string) | Other

  datatype Rule = Rule(allow: bool, pattern: string)

  const MAXIMUM_RULES: nat := 200

  /** Lines `j` and `i` are in one group: past `j`, no user-agent line follows a rule before `i`. */
  predicate SameGroup(lines: seq<Line>, j: nat, i: nat)
    requires j < i <= |lines|
  {
    forall a, b | j < a < b < i :: !(lines[a].Directive? && lines[b].Agent?)
  }

  /** Some user-agent line of the group that reaches up to `i` names everybody. */
  ghost predicate ForEveryone(lines: seq<Line>, i: nat)
    requires i <= |lines|
  {
    exists j | 0 <= j < i :: lines[j] == Agent("*") && SameGroup(lines, j, i)
  }

  /** All rules that apply to everybody among the first `n` lines, in order. */
  ghost function Applicable(lines: seq<Line>, n: nat): seq<Rule>
    requires n <= |lines|
  {
    if n == 0 then []
    else if lines[n - 1].Directive? && lines[n - 1].value != "" && ForEveryone(lines, n - 1)
    then Applicable(lines, n - 1) + [Rule(lines[n - 1].allow, lines[n - 1].value)]
    else Applicable(lines, n - 1)
  }

  function First(rules: seq<Rule>): seq<Rule> {
    if |rules| <= MAXIMUM_RULES then rules else rules[..MAXIMUM_RULES]
  }

  /** No rule has come since the last user-agent line of the first `i` lines. */
  ghost predicate JustAfterAgent(lines: seq<Line>, i: nat)
    requires i <= |lines|
  {
    exists j | 0 <= j < i :: lines[j].Agent? && forall a | j < a < i :: !lines[a].Directive?
  }

  lemma AgentLine(lines: seq<Line>, i: nat)
    requires i < |lines| && lines[i].Agent?
    ensures JustAfterAgent(lines, i + 1)
    ensures ForEveryone(lines, i + 1) <==> (ForEveryone(lines, i) && JustAfterAgent(lines, i)) || lines[i].value == "*"
  {
    assert SameGroup(lines, i, i + 1);
    if ForEveryone(lines, i) && JustAfterAgent(lines, i) {
      var j :| 0 <= j < i && lines[j] == Agent("*") && SameGroup(lines, j, i);
      var k :| 0 <= k < i && lines[k].Agent? && forall a | k < a < i :: !lines[a].Directive?;
      assert SameGroup(lines, j, i + 1);
    }
    if ForEveryone(lines, i + 1) && lines[i].value != "*" {
      var j :| 0 <= j < i + 1 && lines[j] == Agent("*") && SameGroup(lines, j, i + 1);
      assert SameGroup(lines, j, i);
      NoDirectiveSinceAgent(lines, j, i);
    }
  }

  /** Within a group that goes on with another user-agent line, only such lines came before it. */
  lemma NoDirectiveSinceAgent(lines: seq<Line>, j: nat, i: nat)
    requires j < i < |lines| && lines[j].Agent? && lines[i].Agent? && SameGroup(lines, j, i + 1)
    ensures JustAfterAgent(lines, i)
  {
    assert forall a | j < a < i :: !(lines[a].Directive? && lines[i].Agent?);
  }

  lemma OtherLine(lines: seq<Line>, i: nat)
    requires i < |lines| && !lines[i].Agent?
    ensures ForEveryone(lines, i + 1) <==> ForEveryone(lines, i)
    ensures lines[i].Directive? ==> !JustAfterAgent(lines, i + 1)
    ensures lines[i].Other? ==> (JustAfterAgent(lines, i + 1) <==> JustAfterAgent(lines, i))
  {
    assert forall j: nat | j < i :: SameGroup(lines, j, i + 1) <==> SameGroup(lines, j, i);
  }

  /** `parseRobotsRules`: two flags and one pass find exactly the first 200 applicable rules. */
  method ParseRules(lines: seq<Line>) returns (rules: seq<Rule>)
    ensures rules == First(Applicable(lines, |lines|))
  {
    rules := [];
    var applies, afterAgent := false, false;
    for i := 0 to |lines|
      invariant rules == First(Applicable(lines, i))
      invariant applies <==> ForEveryone(lines, i)
      invariant afterAgent <==> JustAfterAgent(lines, i)
    {
      match lines[i] {
        case Agent(value) =>
          AgentLine(lines, i);
          applies := (applies && afterAgent) || value == "*";
          afterAgent := true;
        case Directive(allow, value) =>
          OtherLine(lines, i);
          afterAgent := false;
          if applies && value != "" && |rules| < MAXIMUM_RULES {
            rules := rules + [Rule(allow, value)];
          }
        case Other =>
          OtherLine(lines, i);
      }
    }
  }

  /** The collected rules are applicable ones, in order, and none is missing before the limit. */
  lemma {:induction false} ApplicableIsExact(lines: seq<Line>, n: nat, r: Rule)
    requires n <= |lines|
    ensures r in Applicable(lines, n) <==>
              exists i | 0 <= i < n :: lines[i] == Directive(r.allow, r.pattern) && r.pattern != "" && ForEveryone(lines, i)
  {
    if n > 0 {
      ApplicableIsExact(lines, n - 1, r);
    }
  }

  /** The pattern language: `*` is any text and a final `$` is the end of the target. */
  predicate Matches(pattern: string, target: string)
    decreases |pattern| + |target|
  {
    if pattern == "" then true
    else if pattern == "$" then target == ""
    else if pattern[0] == '*' then Matches(pattern[1..], target) || (target != "" && Matches(pattern, target[1..]))
    else target != "" && target[0] == pattern[0] && Matches(pattern[1..], target[1..])
  }

  function Stars(pattern: string): nat {
    if pattern == "" then 0 else (if pattern[0] == '*' then 1 else 0) + Stars(pattern[1..])
  }

  /** The pattern with its stars filled in. */
  function Fill(pattern: string, gaps: seq<string>): string
    requires |gaps| == Stars(pattern)
  {
    if pattern == "" || pattern == "$" then ""
    else if pattern[0] == '*' then gaps[0] + Fill(pattern[1..], gaps[1..])
    else [pattern[0]] + Fill(pattern[1..], gaps)
  }

  predicate IsAnchored(pattern: string) {
    pattern != "" && pattern[|pattern| - 1] == '$'
  }

  predicate Covers(pattern: string, gaps: seq<string>, target: string)
    requires |gaps| == Stars(pattern)
  {
    if IsAnchored(pattern) then target == Fill(pattern, gaps) else Fill(pattern, gaps) <= target
  }

  lemma {:induction false} MatchFillsIn(pattern: string, target: string) returns (gaps: seq<string>)
    requires Matches(pattern, target)
    ensures |gaps| == Stars(pattern) && Covers(pattern, gaps, target)
    decreases |pattern| + |target|
  {
    if pattern == "" || pattern == "$" {
      gaps := [];
    } else if pattern[0] == '*' {
      if Matches(pattern[1..], target) {
        var rest := MatchFillsIn(pattern[1..], target);
        gaps := [""] + rest;
        assert "" + Fill(pattern[1..], rest) == Fill(pattern[1..], rest);
      } else {
        var rest := MatchFillsIn(pattern, target[1..]);
        gaps := [[target[0]] + rest[0]] + rest[1..];
        assert target == [target[0]] + target[1..];
        assert Fill(pattern, gaps) == [target[0]] + Fill(pattern, rest);
      }
    } else {
      gaps := MatchFillsIn(pattern[1..], target[1..]);
      assert target == [target[0]] + target[1..];
    }
  }

  lemma {:induction false} FillingMatches(pattern: string, gaps: seq<string>, target: string)
    requires |gaps| == Stars(pattern) && Covers(pattern, gaps, target)
    ensures Matches(pattern, target)
    decreases |pattern| + |target|
  {
    if pattern == "" || pattern == "$" {
    } else if pattern[0] == '*' {
      var rest := Fill(pattern[1..], gaps[1..]);
      if gaps[0] == "" {
        assert Fill(pattern, gaps) == rest;
        FillingMatches(pattern[1..], gaps[1..], target);
      } else {
        var shorter := [gaps[0][1..]] + gaps[1..];
        assert Fill(pattern, gaps) == [gaps[0][0]] + Fill(pattern, shorter);
        FillingMatches(pattern, shorter, target[1..]);
      }
    } else {
      assert Fill(pattern, gaps) == [pattern[0]] + Fill(pattern[1..], gaps);
      FillingMatches(pattern[1..], gaps, target[1..]);
    }
  }

  /** A pattern matches exactly the targets that begin with (or, with a final `$`, are) the pattern with
      some text in place of every star. */
  lemma MatchesIffFilled(pattern: string, target: string)
    ensures Matches(pattern, target) <==> exists gaps: seq<string> :: |gaps| == Stars(pattern) && Covers(pattern, gaps, target)
  {
    if Matches(pattern, target) {
      var gaps := MatchFillsIn(pattern, target);
    }
    forall gaps: seq<string> | |gaps| == Stars(pattern) && Covers(pattern, gaps, target)
      ensures Matches(pattern, target)
    {
      FillingMatches(pattern, gaps, target);
    }
  }

  /** Some matching disallow is longer than every matching allow: the longest match decides, and an
      allow wins a tie. */
  ghost predicate IsBlocked(rules: seq<Rule>, target: string) {
    exists d | d in rules :: !d.allow && Matches(d.pattern, target) && OutweighsAllows(rules, target, d)
  }

  predicate OutweighsAllows(rules: seq<Rule>, target: string, d: Rule) {
    forall a | a in rules && a.allow && Matches(a.pattern, target) :: |a.pattern| < |d.pattern|
  }

  /** What the loop knows after the first `n` rules. */
  ghost predicate IsBest(rules: seq<Rule>, n: nat, target: string, best: int, blocked: bool)
    requires n <= |rules|
  {
    && (forall k | 0 <= k < n && Matches(rules[k].pattern, target) ::
          |rules[k].pattern| <= best && (rules[k].allow && |rules[k].pattern| == best ==> !blocked))
    && (if best < 0 then !blocked
        else exists k | 0 <= k < n :: Matches(rules[k].pattern, target) && |rules[k].pattern| == best && rules[k].allow == !blocked)
  }

  lemma BestDecides(rules: seq<Rule>, target: string, best: int, blocked: bool)
    requires IsBest(rules, |rules|, target, best, blocked)
    ensures blocked <==> IsBlocked(rules, target)
  {
    if blocked {
      var k :| 0 <= k < |rules| && Matches(rules[k].pattern, target) && |rules[k].pattern| == best && rules[k].allow == !blocked;
      assert OutweighsAllows(rules, target, rules[k]);
    } else if IsBlocked(rules, target) {
      var d :| d in rules && !d.allow && Matches(d.pattern, target) && OutweighsAllows(rules, target, d);
      var i :| 0 <= i < |rules| && rules[i] == d;
      var k :| 0 <= k < |rules| && Matches(rules[k].pattern, target) && |rules[k].pattern| == best && rules[k].allow == !blocked;
    }
  }

  /** `blocks`; a URL that does not parse is never blocked. */
  method Blocks(rules: seq<Rule>, url: Option<string>) returns (blocked: bool)
    ensures blocked <==> url.Some? && IsBlocked(rules, url.value)
  {
    if url == None {
      return false;
    }
    var target := url.value;
    var best := -1;
    blocked := false;
    for n := 0 to |rules|
      invariant -1 <= best && IsBest(rules, n, target, best, blocked)
    {
      var rule := rules[n];
      if Matches(rule.pattern, target) && (|rule.pattern| > best || (|rule.pattern| == best && rule.allow)) {
        best, blocked := |rule.pattern|, !rule.allow;
      }
    }
    BestDecides(rules, target, best, blocked);
  }

  /** The order of the rules, and repeating one, changes nothing. */
  lemma OrderDoesNotMatter(rules: seq<Rule>, others: seq<Rule>, target: string)
    requires forall r :: r in rules <==> r in others
    ensures IsBlocked(rules, target) <==> IsBlocked(others, target)
  {
    forall d: Rule
      ensures OutweighsAllows(rules, target, d) <==> OutweighsAllows(others, target, d)
    {
    }
  }
}
