/** Queries over the services of an opened cache. Maps are walked in an unspecified order. */
module Querier {
  import opened Ordering
  import opened Prelude
  import opened SchemaTypes

  predicate Declares(services: Services, name: string, path: string) {
    name in services && path in services[name].paths
  }

  // Which services declare a path.
  function Declarers(services: Services, names: set<string>, path: string): set<string> {
    set name | name in names && Declares(services, name, path)
  }

  predicate Declared(services: Services, path: string) {
    exists name | name in services :: Declares(services, name, path)
  }

  // How often a path is collected.
  function Times(services: Services, names: set<string>, prefix: string, path: string): nat {
    if prefix <= path then |Declarers(services, names, path)| else 0
  }

  // The promised answer of a search: ascending, each matching path once for every declaration.
  ghost predicate Listing(services: Services, prefix: string, paths: seq<string>) {
    Sorted(paths) && forall path :: multiset(paths)[path] == Times(services, services.Keys, prefix, path)
  }

  lemma OneMoreDeclarer(services: Services, names: set<string>, name: string, path: string)
    requires name !in names
    ensures |Declarers(services, names + {name}, path)|
         == |Declarers(services, names, path)| + (if Declares(services, name, path) then 1 else 0)
  {
    var before := Declarers(services, names, path);
    if Declares(services, name, path) {
      assert Declarers(services, names + {name}, path) == before + {name};
    } else {
      assert Declarers(services, names + {name}, path) == before;
    }
  }

  // Adding the matching paths of one service counts its declarations.
  lemma CountOneMore(services: Services, names: set<string>, name: string, prefix: string, before: seq<string>, after: seq<string>)
    requires name in services && name !in names
    requires forall path :: multiset(before)[path] == Times(services, names, prefix, path)
    requires forall path :: multiset(after)[path] == multiset(before)[path] + Once(services[name].paths.Keys, prefix, path)
    ensures forall path :: multiset(after)[path] == Times(services, names + {name}, prefix, path)
  {
    forall path
      ensures multiset(after)[path] == Times(services, names + {name}, prefix, path)
    {
      OneMoreDeclarer(services, names, name, path);
    }
  }

  function Once(paths: set<string>, prefix: string, path: string): nat {
    if path in paths && prefix <= path then 1 else 0
  }

  method CollectPaths(services: Services, prefix: string) returns (paths: seq<string>)
    ensures Listing(services, prefix, paths)
  {
    var out := [];
    var left := services.Keys;
    while left != {}
      invariant left <= services.Keys
      invariant forall path :: multiset(out)[path] == Times(services, services.Keys - left, prefix, path)
    {
      var name :| name in left;
      ghost var before := out;
      out := CollectFrom(services[name].paths.Keys, prefix, out);
      CountOneMore(services, services.Keys - left, name, prefix, before, out);
      assert services.Keys - (left - {name}) == services.Keys - left + {name};
      left := left - {name};
    }
    assert services.Keys - {} == services.Keys;
    SortSorts(out);
    return Sort(out);
  }

  // The inner loop: one service.
  method CollectFrom(declared: set<string>, prefix: string, before: seq<string>) returns (out: seq<string>)
    ensures forall path :: multiset(out)[path] == multiset(before)[path] + Once(declared, prefix, path)
  {
    out := before;
    var left := declared;
    while left != {}
      invariant left <= declared
      invariant forall path :: multiset(out)[path] == multiset(before)[path] + Once(declared - left, prefix, path)
    {
      var path :| path in left;
      if prefix == "" || prefix <= path {
        out := out + [path];
      }
      left := left - {path};
    }
  }

  /** Paths and Search. */

  lemma ListingIsUnique(services: Services, prefix: string, paths: seq<string>, paths': seq<string>)
    requires Listing(services, prefix, paths) && Listing(services, prefix, paths')
    ensures paths == paths'
  {
    assert multiset(paths) == multiset(paths');
    SortedIsUnique(paths, paths');
  }

  lemma ListedExactly(services: Services, prefix: string, paths: seq<string>, path: string)
    requires Listing(services, prefix, paths)
    ensures path in paths <==> Declared(services, path) && prefix <= path
  {
    var declarers := Declarers(services, services.Keys, path);
    assert path in paths <==> multiset(paths)[path] > 0;
    if Declared(services, path) {
      var name :| name in services && Declares(services, name, path);
      assert name in declarers;
    } else {
      assert declarers == {};
    }
  }

  function Filtered(paths: seq<string>, prefix: string): seq<string> {
    if paths == [] then []
    else (if prefix <= paths[0] then [paths[0]] else []) + Filtered(paths[1..], prefix)
  }

  lemma {:induction false} FilterCounts(paths: seq<string>, prefix: string, path: string)
    ensures multiset(Filtered(paths, prefix))[path] == if prefix <= path then multiset(paths)[path] else 0
  {
    if paths != [] {
      FilterCounts(paths[1..], prefix, path);
      assert paths == [paths[0]] + paths[1..];
    }
  }

  // A search returns the matching paths of the full list, in its order.
  lemma SearchFiltersPaths(services: Services, prefix: string, all: seq<string>, found: seq<string>)
    requires Listing(services, "", all) && Listing(services, prefix, found)
    ensures found == Filtered(all, prefix)
    ensures exists lo, hi | 0 <= lo <= hi <= |all| :: found == all[lo..hi]
  {
    forall path
      ensures multiset(Filtered(all, prefix))[path] == multiset(found)[path]
    {
      FilterCounts(all, prefix, path);
    }
    var lo, hi := FilterIsBlock(all, prefix);
    assert multiset(Filtered(all, prefix)) == multiset(found);
    SortedIsUnique(Filtered(all, prefix), found);
  }

  // The matches of a sorted list lie together.
  lemma {:induction false} FilterIsBlock(paths: seq<string>, prefix: string) returns (lo: nat, hi: nat)
    requires Sorted(paths)
    ensures lo <= hi <= |paths| && Filtered(paths, prefix) == paths[lo..hi]
    ensures forall i | 0 <= i < |paths| :: prefix <= paths[i] <==> lo <= i < hi
  {
    if paths == [] {
      lo, hi := 0, 0;
    } else {
      var rest := paths[1..];
      assert paths == [paths[0]] + rest;
      lo, hi := FilterIsBlock(rest, prefix);
      if !(prefix <= paths[0]) {
        lo, hi := lo + 1, hi + 1;
      } else if lo == hi {
        lo, hi := 0, 1;
      } else {
        if lo > 0 {
          assert prefix <= rest[lo] && !(prefix <= rest[0]);
          assert paths[1] == rest[0] && paths[1 + lo] == rest[lo];
          PrefixIsConvex(prefix, paths[0], paths[1], paths[1 + lo]);
          assert false;
        }
        assert [paths[0]] + rest[..hi] == paths[..hi + 1];
        lo, hi := 0, hi + 1;
      }
    }
  }

  /** Describe and HasPath. */

  // The possible answers to a look-up.
  ghost predicate Found(services: Services, path: string, r: Option<PathSpec>) {
    match r
    case None => !Declared(services, path)
    case Some(spec) => exists name | name in services :: Declares(services, name, path) && services[name].paths[path] == spec
  }

  // Stops at the first service found to declare the path.
  method LookupPath(services: Services, path: string) returns (r: Option<PathSpec>)
    ensures Found(services, path, r)
  {
    var left := services.Keys;
    while left != {}
      invariant left <= services.Keys
      invariant forall name | name in services && name !in left :: !Declares(services, name, path)
    {
      var name :| name in left;
      if path in services[name].paths {
        assert Declares(services, name, path);
        return Some(services[name].paths[path]);
      }
      left := left - {name};
    }
    return None;
  }

  // All services that declare a path describe it alike; trivially so when only one declares it.
  ghost predicate Unambiguous(services: Services, path: string) {
    forall a, b | Declares(services, a, path) && Declares(services, b, path) ::
      services[a].paths[path] == services[b].paths[path]
  }

  // The description is independent of the order of the walk exactly for such paths.
  lemma DescribeIsDeterminedExactly(services: Services, path: string)
    ensures Unambiguous(services, path) <==>
            forall r, r' | Found(services, path, r) && Found(services, path, r') :: r == r'
  {
    if forall r, r' | Found(services, path, r) && Found(services, path, r') :: r == r' {
      forall a, b | Declares(services, a, path) && Declares(services, b, path)
        ensures services[a].paths[path] == services[b].paths[path]
      {
        assert Found(services, path, Some(services[a].paths[path]));
        assert Found(services, path, Some(services[b].paths[path]));
      }
    }
  }

  // Describe succeeds exactly on the listed paths.
  lemma DescribesListedPaths(services: Services, all: seq<string>, path: string, r: Option<PathSpec>)
    requires Listing(services, "", all) && Found(services, path, r)
    ensures r.Some? <==> path in all
  {
    ListedExactly(services, "", all, path);
  }

  // How method names are folded to upper case: any function, strings.ToUpper in particular.
  type Fold = string -> string

  // The possible answers of HasPath.
  ghost predicate Answers(services: Services, upper: Fold, verb: string, path: string, b: bool) {
    exists r :: Found(services, path, r) && b == (r.Some? && upper(verb) in r.value)
  }

  method HasPath(services: Services, upper: Fold, verb: string, path: string) returns (b: bool)
    ensures Answers(services, upper, verb, path, b)
    ensures b ==> Declared(services, path)
  {
    var r := LookupPath(services, path);
    return r.Some? && upper(verb) in r.value;
  }

  // All services that declare a path agree on whether it has a method.
  ghost predicate AgreeOn(services: Services, upper: Fold, verb: string, path: string) {
    forall a, b | Declares(services, a, path) && Declares(services, b, path) ::
      upper(verb) in services[a].paths[path] <==> upper(verb) in services[b].paths[path]
  }

  // HasPath is independent of the order of the walk exactly for such paths, however else their
  // descriptions differ.
  lemma HasPathIsDeterminedExactly(services: Services, upper: Fold, verb: string, path: string)
    ensures AgreeOn(services, upper, verb, path) <==>
            forall b, b' | Answers(services, upper, verb, path, b) && Answers(services, upper, verb, path, b') :: b == b'
  {
    if AgreeOn(services, upper, verb, path) {
      forall b, b' | Answers(services, upper, verb, path, b) && Answers(services, upper, verb, path, b')
        ensures b == b'
      {
        var r :| Found(services, path, r) && b == (r.Some? && upper(verb) in r.value);
        var r' :| Found(services, path, r') && b' == (r'.Some? && upper(verb) in r'.value);
        FoundAgree(services, upper, verb, path, r, r');
      }
    }
    if forall b, b' | Answers(services, upper, verb, path, b) && Answers(services, upper, verb, path, b') :: b == b' {
      forall s, t | Declares(services, s, path) && Declares(services, t, path)
        ensures upper(verb) in services[s].paths[path] <==> upper(verb) in services[t].paths[path]
      {
        DeclarerAnswers(services, upper, verb, path, s);
        DeclarerAnswers(services, upper, verb, path, t);
      }
    }
  }

  // Any two look-ups then agree on the method.
  lemma FoundAgree(services: Services, upper: Fold, verb: string, path: string, r: Option<PathSpec>, r': Option<PathSpec>)
    requires AgreeOn(services, upper, verb, path) && Found(services, path, r) && Found(services, path, r')
    ensures (r.Some? && upper(verb) in r.value) <==> (r'.Some? && upper(verb) in r'.value)
  {
    if r.Some? && r'.Some? {
      var s :| s in services && Declares(services, s, path) && services[s].paths[path] == r.value;
      var t :| t in services && Declares(services, t, path) && services[t].paths[path] == r'.value;
    }
  }

  lemma DeclarerAnswers(services: Services, upper: Fold, verb: string, path: string, name: string)
    requires Declares(services, name, path)
    ensures Answers(services, upper, verb, path, upper(verb) in services[name].paths[path])
  {
    var r := Some(services[name].paths[path]);
    assert Found(services, path, r);
    assert r.Some? && r.value == services[name].paths[path];
  }

  // Wherever the declaring services agree on the method, HasPath agrees with Describe, in any
  // letter case of the method.
  lemma HasPathAgreesWithDescribe(services: Services, upper: Fold, verb: string, verb': string, path: string, b: bool, r: Option<PathSpec>)
    requires AgreeOn(services, upper, verb, path) && Found(services, path, r)
    requires Answers(services, upper, verb, path, b) && upper(verb) == upper(verb')
    ensures b <==> r.Some? && upper(verb') in r.value
    ensures upper(upper(verb)) == upper(verb) ==> Answers(services, upper, upper(verb), path, b)
  {
    var r' :| Found(services, path, r') && b == (r'.Some? && upper(verb) in r'.value);
    FoundAgree(services, upper, verb, path, r, r');
  }

  // A described method is found under its own name exactly when its upper-case form is described
  // as well; one described only as "get" is not found.
  lemma DescribedIsFoundExactly(services: Services, upper: Fold, path: string, spec: PathSpec, verb: string)
    requires AgreeOn(services, upper, verb, path) && Found(services, path, Some(spec)) && verb in spec
    ensures Answers(services, upper, verb, path, true) <==> upper(verb) in spec
    ensures Answers(services, upper, verb, path, false) <==> upper(verb) !in spec
  {
    assert Some(spec).Some? && Some(spec).value == spec;
    forall b | Answers(services, upper, verb, path, b)
      ensures b <==> upper(verb) in spec
    {
      HasPathAgreesWithDescribe(services, upper, verb, verb, path, b, Some(spec));
    }
  }
}
