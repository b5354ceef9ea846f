/** The results display: the produced file names split into the JSON files
    and the Markdown files, or nothing at all for an empty list. */
module Results {
  import opened Common
  import opened Text

  /** `xs.filter(keep)`. */
  function Filter(keep: string -> bool, xs: seq<string>): (r: seq<string>)
    ensures |r| <= |xs|
    ensures forall i :: 0 <= i < |r| ==> keep(r[i])
  {
    if xs == [] then []
    else (if keep(xs[0]) then [xs[0]] else []) + Filter(keep, xs[1..])
  }

  predicate IsJson(name: string) {
    EndsWith(name, ".json")
  }

  predicate IsMarkdown(name: string) {
    EndsWith(name, ".md")
  }

  /** The two lists the display renders. */
  datatype Listing = Listing(jsonFiles: seq<string>, mdFiles: seq<string>)

  /** `ResultsDisplay`: `null` for an empty result list, otherwise the names
      ending in ".json" and the names ending in ".md". */
  function Display(results: seq<string>): (r: Option<Listing>)
    ensures r.None? <==> results == []
  {
    if results == [] then None
    else Some(Listing(Filter(IsJson, results), Filter(IsMarkdown, results)))
  }

  /** A filter keeps exactly the elements that pass, and no more of them than there were. */
  lemma {:induction false} FilterMembers(keep: string -> bool, xs: seq<string>)
    ensures forall x :: x in Filter(keep, xs) <==> x in xs && keep(x)
    ensures |Filter(keep, xs)| <= |xs|
  {
    if xs != [] {
      FilterMembers(keep, xs[1..]);
      assert xs == [xs[0]] + xs[1..];
    }
  }

  /** A filter keeps the original order: filtering a concatenation is
      concatenating the filtered parts. */
  lemma {:induction false} FilterAppend(keep: string -> bool, xs: seq<string>, ys: seq<string>)
    ensures Filter(keep, xs + ys) == Filter(keep, xs) + Filter(keep, ys)
  {
    if xs == [] {
      assert xs + ys == ys;
    } else {
      var head := if keep(xs[0]) then [xs[0]] else [];
      assert (xs + ys)[0] == xs[0] && (xs + ys)[1..] == xs[1..] + ys;
      calc {
        Filter(keep, xs + ys);
        head + Filter(keep, xs[1..] + ys);
        { FilterAppend(keep, xs[1..], ys); }
        head + (Filter(keep, xs[1..]) + Filter(keep, ys));
        (head + Filter(keep, xs[1..])) + Filter(keep, ys);
      }
    }
  }

  /** Filtering a filtered list again with the same test changes nothing. */
  lemma {:induction false} FilterIdempotent(keep: string -> bool, xs: seq<string>)
    ensures Filter(keep, Filter(keep, xs)) == Filter(keep, xs)
  {
    if xs != [] {
      FilterIdempotent(keep, xs[1..]);
      var f := Filter(keep, xs);
      if keep(xs[0]) {
        assert f == [xs[0]] + Filter(keep, xs[1..]);
        assert f[0] == xs[0] && f[1..] == Filter(keep, xs[1..]);
        assert Filter(keep, f) == [xs[0]] + Filter(keep, f[1..]);
      } else {
        assert f == Filter(keep, xs[1..]);
      }
    }
  }

  /** No name ends in both ".json" and ".md". */
  lemma SuffixesExclusive(name: string)
    ensures !(IsJson(name) && IsMarkdown(name))
  {
    if IsJson(name) {
      assert name[|name| - 1] == ".json"[4];
    }
  }

  /** Two filters with exclusive tests pick out no more names together than the list holds. */
  lemma {:induction false} ExclusiveFiltersFit(xs: seq<string>)
    ensures |Filter(IsJson, xs)| + |Filter(IsMarkdown, xs)| <= |xs|
  {
    if xs != [] {
      ExclusiveFiltersFit(xs[1..]);
      SuffixesExclusive(xs[0]);
    }
  }

  /** The display's two lists: the JSON list is exactly the ".json" names and
      the Markdown list exactly the ".md" names, both in their original order
      and unchanged by filtering again; no name is in both, a name with any
      other suffix is in neither, and together they are no longer than the input. */
  lemma DisplayPartition(results: seq<string>)
    requires results != []
    ensures var l := Display(results).value;
            && (forall x :: x in l.jsonFiles <==> x in results && IsJson(x))
            && (forall x :: x in l.mdFiles <==> x in results && IsMarkdown(x))
            && (forall x :: !(x in l.jsonFiles && x in l.mdFiles))
            && (forall x :: !IsJson(x) && !IsMarkdown(x) ==> x !in l.jsonFiles && x !in l.mdFiles)
            && |l.jsonFiles| + |l.mdFiles| <= |results|
            && Filter(IsJson, l.jsonFiles) == l.jsonFiles
            && Filter(IsMarkdown, l.mdFiles) == l.mdFiles
  {
    FilterMembers(IsJson, results);
    FilterMembers(IsMarkdown, results);
    forall x ensures !(IsJson(x) && IsMarkdown(x)) {
      SuffixesExclusive(x);
    }
    ExclusiveFiltersFit(results);
    FilterIdempotent(IsJson, results);
    FilterIdempotent(IsMarkdown, results);
  }
}
