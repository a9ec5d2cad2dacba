/** Choosing the real headset sink from the names `pactl` lists. */
module SinkSearch {
  import opened Wrappers

  /** Python's `pat in s` on strings. */
  function IsInfix(pat: string, s: string): bool
    decreases |s|
  {
    if |s| < |pat| then false
    else if s[..|pat|] == pat then true
    else |s| > 0 && IsInfix(pat, s[1..])
  }

  /** `pat` occurs in `s` starting at index `i`. */
  predicate OccursAt(pat: string, s: string, i: int)
  {
    0 <= i <= |s| - |pat| && s[i..i + |pat|] == pat
  }

  lemma {:induction false} IsInfixIff(pat: string, s: string)
    ensures IsInfix(pat, s) <==> exists i :: OccursAt(pat, s, i)
    decreases |s|
  {
    if |s| < |pat| {
    } else if s[..|pat|] == pat {
      assert OccursAt(pat, s, 0);
    } else {
      IsInfixIff(pat, s[1..]);
      if IsInfix(pat, s) {
        var j :| OccursAt(pat, s[1..], j);
        assert s[j + 1..j + 1 + |pat|] == s[1..][j..j + |pat|];
        assert OccursAt(pat, s, j + 1);
      } else {
        forall i ensures !OccursAt(pat, s, i) {
          if 1 <= i <= |s| - |pat| {
            SliceOfTail(s, i, |pat|);
            assert !OccursAt(pat, s[1..], i - 1);
          }
        }
      }
    }
  }

  /** A slice starting after the first element is the same slice of the tail. */
  lemma SliceOfTail(s: string, i: int, n: nat)
    requires 1 <= i && i + n <= |s|
    ensures s[i..i + n] == s[1..][i - 1..i - 1 + n]
  {
    var a, b := s[i..i + n], s[1..][i - 1..i - 1 + n];
    forall k | 0 <= k < n ensures a[k] == b[k] {
      assert s[1..][i - 1 + k] == s[i + k];
    }
  }

  /** The length of the first tab-separated field of `s`: the index of the
      first tab, or `|s|` when there is none. */
  function FieldEnd(s: string): (r: nat)
    ensures r <= |s| && (r < |s| ==> s[r] == '\t')
    ensures forall k :: 0 <= k < r ==> s[k] != '\t'
  {
    if s == [] || s[0] == '\t' then 0 else 1 + FieldEnd(s[1..])
  }

  /** `line.split("\t")[1]`: the second tab-separated field, or None when the
      line has no tab and the index raises IndexError. */
  function NameField(line: string): (r: Option<string>)
    ensures r.None? <==> forall k :: 0 <= k < |line| ==> line[k] != '\t'
    ensures r.Some? ==> forall k :: 0 <= k < |r.value| ==> r.value[k] != '\t'
  {
    var i := FieldEnd(line);
    if i == |line| then None
    else
      var rest := line[i + 1..];
      Some(rest[..FieldEnd(rest)])
  }

  /** A `pactl list sinks short` row `index<TAB>name<TAB>...` yields `name`. */
  lemma NameFieldOfRow(index: string, name: string, rest: string)
    requires forall k :: 0 <= k < |index| ==> index[k] != '\t'
    requires forall k :: 0 <= k < |name| ==> name[k] != '\t'
    requires rest == [] || rest[0] == '\t'
    ensures NameField(index + "\t" + name + rest) == Some(name)
  {
    var line := index + "\t" + name + rest;
    assert line == index + ("\t" + name + rest);
    FieldEndOf(index, "\t" + name + rest);
    assert line[|index| + 1..] == name + rest;
    FieldEndOf(name, rest);
    assert (name + rest)[..|name|] == name;
  }

  /** The first field of `a + b` ends where `a` does when `a` has no tab and
      `b` is empty or starts with one. */
  lemma {:induction false} FieldEndOf(a: string, b: string)
    requires forall k :: 0 <= k < |a| ==> a[k] != '\t'
    requires b == [] || b[0] == '\t'
    ensures FieldEnd(a + b) == |a|
  {
    if a != [] {
      assert (a + b)[1..] == a[1..] + b;
      FieldEndOf(a[1..], b);
    }
  }

  /** A line the scan passes over: it splits, and its name lacks `pat`. */
  predicate Skips(line: string, pat: string)
  {
    NameField(line).Some? && !IsInfix(pat, NameField(line).value)
  }

  /** Where the `for sink in sinks:` scan stops: at a line whose name contains
      the pattern, at a line that cannot be split, or after the last line. */
  datatype Scan = Found(index: nat, name: string) | Unsplittable(index: nat) | Missing

  /** The scan of the listing lines for a name containing `pat`. */
  function ScanSinks(lines: seq<string>, pat: string): (r: Scan)
    ensures r.Found? ==> r.index < |lines| && NameField(lines[r.index]) == Some(r.name) && IsInfix(pat, r.name)
    ensures r.Unsplittable? ==> r.index < |lines| && NameField(lines[r.index]).None?
    ensures !r.Missing? ==> forall j :: 0 <= j < r.index ==> Skips(lines[j], pat)
    ensures r.Missing? <==> forall j :: 0 <= j < |lines| ==> Skips(lines[j], pat)
  {
    if lines == [] then Missing
    else if NameField(lines[0]).None? then Unsplittable(0)
    else if IsInfix(pat, NameField(lines[0]).value) then Found(0, NameField(lines[0]).value)
    else match ScanSinks(lines[1..], pat)
      case Found(k, name) => Found(k + 1, name)
      case Unsplittable(k) => Unsplittable(k + 1)
      case Missing => Missing
  }

  /** `split("\n")` of newline-terminated output ends in an empty line, which
      cannot be split: such a scan never runs off the end. */
  lemma TerminatedListingNeverMissing(lines: seq<string>, pat: string)
    requires |lines| > 0 && lines[|lines| - 1] == []
    ensures !ScanSinks(lines, pat).Missing?
  {
  }

  /** The loop `for sink in sinks: name = sink.split("\t")[1]; if pat in name: break`. */
  method FindSink(lines: seq<string>, pat: string) returns (r: Scan)
    ensures r == ScanSinks(lines, pat)
  {
    var i := 0;
    while i < |lines|
      invariant 0 <= i <= |lines|
      invariant forall j :: 0 <= j < i ==> Skips(lines[j], pat)
      invariant ScanSinks(lines, pat) == ScanFrom(ScanSinks(lines[i..], pat), i)
    {
      var name := NameField(lines[i]);
      if name.None? {
        return Unsplittable(i);
      }
      if IsInfix(pat, name.value) {
        return Found(i, name.value);
      }
      assert lines[i..][1..] == lines[i + 1..];
      i := i + 1;
    }
    return Missing;
  }

  /** A scan result of a suffix starting at `offset`, as an index into the whole. */
  function ScanFrom(r: Scan, offset: nat): Scan
  {
    match r
    case Found(k, name) => Found(k + offset, name)
    case Unsplittable(k) => Unsplittable(k + offset)
    case Missing => Missing
  }

  /** `if self.pw_original_sink:` — Python treats None and "" alike as unset. */
  predicate Truthy(name: Option<string>) { name.Some? && name.value != [] }
}
