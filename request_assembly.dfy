/** How runner.js turns a webpack-style request and a rule list into the loader list it hands
    to `runLoaders` (runner.js:27-59): a leading `-!`, `!` or `!!` prefix is stripped, the rest
    is split on "!" into inline loaders and the resource, every rule whose test matches the
    resource adds its `use` list to the pre, post or normal bucket, and the prefix decides
    which of the four lists make up the result. */
module RequestAssembly {
  import opened LoaderValues
  import opened JsStrings

  /** A rule. Its `test` is a regular expression anchored at the end of the resource
      (`/\.js$/`), kept here as the suffix it demands; `enforce` is absent, "pre", "post" or
      any other string. */
  datatype Rule = Rule(test: string, enforce: Option<string>, use: seq<string>)

  /** `resource.match(rule.test)` is truthy. */
  predicate Matches(resource: string, rule: Rule)
  {
    EndsWith(resource, rule.test)
  }

  datatype Bucket = PreBucket | PostBucket | NormalBucket

  /** The bucket the `enforce` chain picks: "pre", then "post", anything else is normal. */
  function BucketOf(rule: Rule): Bucket
  {
    if rule.enforce == Some("pre") then PreBucket
    else if rule.enforce == Some("post") then PostBucket
    else NormalBucket
  }

  /** The loader names that the matching rules of bucket `b` contribute, in rule order. */
  function Collected(resource: string, rules: seq<Rule>, b: Bucket): seq<string>
    decreases |rules|
  {
    if |rules| == 0 then []
    else
      var last := rules[|rules| - 1];
      Collected(resource, rules[..|rules| - 1], b)
        + (if Matches(resource, last) && BucketOf(last) == b then last.use else [])
  }

  /** Every loader name of every matching rule, in rule order, whatever its bucket. */
  function AllMatched(resource: string, rules: seq<Rule>): seq<string>
    decreases |rules|
  {
    if |rules| == 0 then []
    else
      var last := rules[|rules| - 1];
      AllMatched(resource, rules[..|rules| - 1]) + (if Matches(resource, last) then last.use else [])
  }

  /** The three buckets split the names of the matching rules between them: each name lands
      in exactly one bucket and none is invented. */
  lemma {:induction false} BucketsPartitionMatched(resource: string, rules: seq<Rule>)
    ensures |Collected(resource, rules, PreBucket)| + |Collected(resource, rules, PostBucket)|
            + |Collected(resource, rules, NormalBucket)| == |AllMatched(resource, rules)|
    ensures multiset(Collected(resource, rules, PreBucket)) + multiset(Collected(resource, rules, PostBucket))
            + multiset(Collected(resource, rules, NormalBucket)) == multiset(AllMatched(resource, rules))
    decreases |rules|
  {
    if |rules| > 0 {
      var init, last := rules[..|rules| - 1], rules[|rules| - 1];
      BucketsPartitionMatched(resource, init);
      var added := if Matches(resource, last) then last.use else [];
      SplitAdded(Collected(resource, init, PreBucket), Collected(resource, init, PostBucket),
                 Collected(resource, init, NormalBucket), AllMatched(resource, init),
                 Collected(resource, rules, PreBucket), Collected(resource, rules, PostBucket),
                 Collected(resource, rules, NormalBucket), added);
    }
  }

  /** One rule's names added to exactly one of three buckets keep the buckets a split of all names. */
  lemma SplitAdded(pre: seq<string>, post: seq<string>, normal: seq<string>, all: seq<string>,
                   pre': seq<string>, post': seq<string>, normal': seq<string>, added: seq<string>)
    requires multiset(pre) + multiset(post) + multiset(normal) == multiset(all)
    requires || (pre' == pre + added && post' == post && normal' == normal)
             || (pre' == pre && post' == post + added && normal' == normal)
             || (pre' == pre && post' == post && normal' == normal + added)
    ensures |pre'| + |post'| + |normal'| == |all + added|
    ensures multiset(pre') + multiset(post') + multiset(normal') == multiset(all + added)
  {
    assert |pre| + |post| + |normal| == |all| by {
      assert |multiset(pre) + multiset(post) + multiset(normal)| == |multiset(all)|;
    }
  }

  /** Rules without `enforce` all go to the normal bucket, in rule order. */
  lemma {:induction false} UnenforcedRulesAreNormal(resource: string, rules: seq<Rule>)
    requires forall i :: 0 <= i < |rules| ==> rules[i].enforce.None?
    ensures Collected(resource, rules, NormalBucket) == AllMatched(resource, rules)
    ensures Collected(resource, rules, PreBucket) == [] && Collected(resource, rules, PostBucket) == []
    decreases |rules|
  {
    if |rules| > 0 {
      UnenforcedRulesAreNormal(resource, rules[..|rules| - 1]);
    }
  }

  // ---------------------------------------------------------------------------------
  // The request prefix.

  /** `n` exclamation marks. */
  function Bangs(n: nat): (s: string)
    ensures |s| == n && forall i :: 0 <= i < n ==> s[i] == '!'
  {
    seq(n, _ => '!')
  }

  /** A text the regular expression `-?!+` matches in full. */
  predicate BangPrefix(p: string)
  {
    || (|p| >= 1 && forall i :: 0 <= i < |p| ==> p[i] == '!')
    || (|p| >= 2 && p[0] == '-' && forall i :: 1 <= i < |p| ==> p[i] == '!')
  }

  /** `s` without its leading run of "!". */
  function DropBangs(s: string): (r: string)
    ensures |r| <= |s| && r == s[|s| - |r|..]
    ensures forall i :: 0 <= i < |s| - |r| ==> s[i] == '!'
    ensures r == [] || r[0] != '!'
  {
    if |s| > 0 && s[0] == '!' then DropBangs(s[1..]) else s
  }

  /** `s.replace(/^-?!+/, "")`: at the start only, an optional "-" followed by as many "!" as
      there are, removed in one go; anything else is left alone. */
  function StripPrefix(s: string): (r: string)
    ensures |r| <= |s| && r == s[|s| - |r|..]
  {
    if |s| >= 2 && s[0] == '-' && s[1] == '!' then DropBangs(s[1..])
    else if |s| >= 1 && s[0] == '!' then DropBangs(s)
    else s
  }

  /** What `StripPrefix` removes: nothing exactly when the text starts with neither "!" nor
      "-!", and otherwise the whole of a `-?!+` run, leaving no "!" in front. */
  lemma StripPrefixRemoves(s: string)
    ensures StripPrefix(s) == s <==> !(StartsWith(s, "!") || StartsWith(s, "-!"))
    ensures StripPrefix(s) != s ==>
      var r := StripPrefix(s);
      BangPrefix(s[..|s| - |r|]) && (r == [] || r[0] != '!')
  {
    StartsWithMarks(s);
    var r := StripPrefix(s);
    if |s| >= 2 && s[0] == '-' && s[1] == '!' {
      DroppedDashBangs(s, r);
    } else if |s| >= 1 && s[0] == '!' {
      DroppedBangs(s, r);
    }
  }

  /** What `DropBangs` removes from a text starting with "!" is a non-empty run of "!". */
  lemma DroppedBangs(s: string, r: string)
    requires |s| > 0 && s[0] == '!' && r == DropBangs(s)
    ensures |r| < |s| && BangPrefix(s[..|s| - |r|])
  {
    var t := s[1..];
    assert r == DropBangs(t) && |r| <= |t|;
    var n := |s| - |r|;
    var p := s[..n];
    forall i | 0 <= i < |p|
      ensures p[i] == '!'
    {
      assert p[i] == s[i];
    }
  }

  /** What `StripPrefix` removes from a text starting with "-!": the "-" and the run of "!". */
  lemma DroppedDashBangs(s: string, r: string)
    requires |s| >= 2 && s[0] == '-' && s[1] == '!' && r == DropBangs(s[1..])
    ensures BangPrefix(s[..|s| - |r|])
  {
    var t := s[1..];
    DroppedBangs(t, r);
    var p := s[..|s| - |r|];
    assert forall i :: 1 <= i < |p| ==> p[i] == t[i - 1];
  }

  lemma {:induction false} DropBangsOfBangs(n: nat, t: string)
    requires t == [] || t[0] != '!'
    ensures DropBangs(Bangs(n) + t) == t
  {
    if n > 0 {
      assert (Bangs(n) + t)[1..] == Bangs(n - 1) + t;
      DropBangsOfBangs(n - 1, t);
    } else {
      assert Bangs(0) + t == t;
    }
  }

  // ---------------------------------------------------------------------------------
  // The assembled list.

  /** The `if` chain over the original request (runner.js:46-55). */
  function Combine(request: string, inline: seq<string>, pre: seq<string>, post: seq<string>,
                   normal: seq<string>): seq<string>
  {
    if StartsWith(request, "!!") then inline
    else if StartsWith(request, "-!") then post + pre
    else if StartsWith(request, "!") then post + normal + pre
    else post + inline + normal + pre
  }

  /** The resource and the loader names, before `path.resolve`. */
  datatype Assembly = Assembly(resource: string, loaders: seq<string>)

  /** What runner.js:27-55 computes: the last "!"-piece of the stripped request is the
      resource, the pieces before it the inline loaders. */
  function Assemble(request: string, rules: seq<Rule>): (a: Assembly)
    ensures '!' !in a.resource
  {
    var parts := Split(StripPrefix(request), '!');
    var resource := parts[|parts| - 1];
    var inline := parts[..|parts| - 1];
    Assembly(resource, Combine(request, inline,
                               Collected(resource, rules, PreBucket),
                               Collected(resource, rules, PostBucket),
                               Collected(resource, rules, NormalBucket)))
  }

  /** Inline loader names and a resource, none of them holding a "!". */
  predicate Pieces(inline: seq<string>, resource: string)
  {
    && (forall i :: 0 <= i < |inline| ==> '!' !in inline[i])
    && '!' !in resource
  }

  /** The first piece of the request after its prefix is not empty. */
  predicate HeadPiece(inline: seq<string>, resource: string)
  {
    (inline + [resource])[0] != []
  }

  /** Once the prefix is stripped, the pieces are recovered: the last is the resource, the
      others the inline loaders. */
  lemma AssembleOfPieces(request: string, inline: seq<string>, resource: string, rules: seq<Rule>)
    requires Pieces(inline, resource) && StripPrefix(request) == Join(inline + [resource], '!')
    ensures Assemble(request, rules) == Assembly(resource, Combine(request, inline,
              Collected(resource, rules, PreBucket),
              Collected(resource, rules, PostBucket),
              Collected(resource, rules, NormalBucket)))
  {
    var parts := inline + [resource];
    SplitJoin(parts, '!');
    assert Split(StripPrefix(request), '!') == parts;
    assert parts[|parts| - 1] == resource;
    assert parts[..|parts| - 1] == inline;
  }

  /** A request with no prefix: post loaders, then the inline loaders, then normal, then pre. */
  lemma PlainRequest(inline: seq<string>, resource: string, rules: seq<Rule>)
    requires Pieces(inline, resource) && HeadPiece(inline, resource) && (inline + [resource])[0] != "-"
    ensures
      var a := Assemble(Join(inline + [resource], '!'), rules);
      && a.resource == resource
      && a.loaders == Collected(resource, rules, PostBucket) + inline
                      + Collected(resource, rules, NormalBucket) + Collected(resource, rules, PreBucket)
  {
    var parts := inline + [resource];
    var request := Join(parts, '!');
    JoinStart(parts);
    assert !StartsWith(request, "!");
    assert !StartsWith(request, "-!") by {
      if |parts[0]| == 1 {
        assert parts[0] == [parts[0][0]];
      }
    }
    AssembleOfPieces(request, inline, resource, rules);
  }

  /** The text of a request starts with its first piece. */
  lemma JoinStart(parts: seq<string>)
    requires |parts| >= 1 && parts[0] != []
    ensures |Join(parts, '!')| >= 1 && Join(parts, '!')[0] == parts[0][0]
    ensures |parts[0]| >= 2 ==> |Join(parts, '!')| >= 2 && Join(parts, '!')[1] == parts[0][1]
    ensures |parts[0]| == 1 && |parts| >= 2 ==> |Join(parts, '!')| >= 2 && Join(parts, '!')[1] == '!'
  {
  }

  /** A request prefixed with "!" marks, possibly after a "-": the prefix is stripped however
      many marks it has, the remaining pieces are recovered, and
      - two or more marks keep only the inline loaders (tested first, so "!!" wins over "!");
      - "-!" keeps post and pre loaders;
      - a single "!" keeps post, normal and pre loaders. */
  lemma PrefixedRequest(dash: bool, bangs: nat, inline: seq<string>, resource: string, rules: seq<Rule>)
    requires bangs >= 1 && Pieces(inline, resource) && HeadPiece(inline, resource)
    ensures
      var a := Assemble((if dash then "-" else "") + Bangs(bangs) + Join(inline + [resource], '!'), rules);
      var pre := Collected(resource, rules, PreBucket);
      var post := Collected(resource, rules, PostBucket);
      var normal := Collected(resource, rules, NormalBucket);
      && a.resource == resource
      && (!dash && bangs >= 2 ==> a.loaders == inline)
      && (dash ==> a.loaders == post + pre)
      && (!dash && bangs == 1 ==> a.loaders == post + normal + pre)
  {
    var rest := Join(inline + [resource], '!');
    if dash {
      DashedAssembly(bangs, inline, resource, rules);
    } else {
      assert "" + Bangs(bangs) + rest == Bangs(bangs) + rest;
      BangedAssembly(bangs, inline, resource, rules);
    }
  }

  lemma DashedAssembly(bangs: nat, inline: seq<string>, resource: string, rules: seq<Rule>)
    requires bangs >= 1 && Pieces(inline, resource) && HeadPiece(inline, resource)
    ensures
      var a := Assemble("-" + Bangs(bangs) + Join(inline + [resource], '!'), rules);
      a == Assembly(resource, Collected(resource, rules, PostBucket) + Collected(resource, rules, PreBucket))
  {
    var rest := Join(inline + [resource], '!');
    JoinStart(inline + [resource]);
    DashedRequest(bangs, rest);
    AssembleOfPieces("-" + Bangs(bangs) + rest, inline, resource, rules);
  }

  lemma BangedAssembly(bangs: nat, inline: seq<string>, resource: string, rules: seq<Rule>)
    requires bangs >= 1 && Pieces(inline, resource) && HeadPiece(inline, resource)
    ensures
      var a := Assemble(Bangs(bangs) + Join(inline + [resource], '!'), rules);
      var post := Collected(resource, rules, PostBucket);
      var normal := Collected(resource, rules, NormalBucket);
      var pre := Collected(resource, rules, PreBucket);
      a == Assembly(resource, if bangs >= 2 then inline else post + normal + pre)
  {
    var rest := Join(inline + [resource], '!');
    JoinStart(inline + [resource]);
    BangedRequest(bangs, rest);
    AssembleOfPieces(Bangs(bangs) + rest, inline, resource, rules);
  }

  /** How the strip and the `startsWith` tests see a request marked "-!", "-!!", ... */
  lemma DashedRequest(bangs: nat, rest: string)
    requires bangs >= 1 && |rest| >= 1 && rest[0] != '!'
    ensures var request := "-" + Bangs(bangs) + rest;
      && StripPrefix(request) == rest
      && !StartsWith(request, "!!") && StartsWith(request, "-!") && !StartsWith(request, "!")
  {
    var marks := Bangs(bangs) + rest;
    BangsThenRest(bangs, rest);
    var request := "-" + marks;
    assert request[0] == '-' && request[1] == '!';
    assert request[1..] == marks;
    assert "-" + Bangs(bangs) + rest == request;
    StartsWithMarks(request);
  }

  /** How the strip and the `startsWith` tests see a request marked "!", "!!", ... */
  lemma BangedRequest(bangs: nat, rest: string)
    requires bangs >= 1 && |rest| >= 1 && rest[0] != '!'
    ensures var request := Bangs(bangs) + rest;
      && StripPrefix(request) == rest
      && (StartsWith(request, "!!") <==> bangs >= 2)
      && !StartsWith(request, "-!") && StartsWith(request, "!")
  {
    BangsThenRest(bangs, rest);
    StartsWithMarks(Bangs(bangs) + rest);
  }

  lemma BangsThenRest(bangs: nat, rest: string)
    requires bangs >= 1 && |rest| >= 1 && rest[0] != '!'
    ensures var marks := Bangs(bangs) + rest;
      && |marks| >= 2 && marks[0] == '!'
      && marks[1] == (if bangs >= 2 then '!' else rest[0])
      && DropBangs(marks) == rest
  {
    DropBangsOfBangs(bangs, rest);
  }

  /** The three `startsWith` tests, character by character. */
  lemma StartsWithMarks(s: string)
    ensures StartsWith(s, "!") <==> |s| >= 1 && s[0] == '!'
    ensures StartsWith(s, "!!") <==> |s| >= 2 && s[0] == '!' && s[1] == '!'
    ensures StartsWith(s, "-!") <==> |s| >= 2 && s[0] == '-' && s[1] == '!'
  {
    if |s| >= 2 {
      assert s[..2] == [s[0], s[1]];
    }
    if |s| >= 1 {
      assert s[..1] == [s[0]];
    }
  }

  /** One more rule extends exactly the bucket it belongs to, and only if it matches. */
  lemma CollectedStep(resource: string, rules: seq<Rule>, i: nat, b: Bucket)
    requires i < |rules|
    ensures Collected(resource, rules[..i + 1], b) == Collected(resource, rules[..i], b)
      + (if Matches(resource, rules[i]) && BucketOf(rules[i]) == b then rules[i].use else [])
  {
    assert rules[..i + 1][..i] == rules[..i];
  }

  /** The loop of runner.js:33-44: each matching rule's `use` list is pushed onto the bucket
      its `enforce` names. */
  method BucketRules(resource: string, rules: seq<Rule>)
    returns (preLoaders: seq<string>, postLoaders: seq<string>, normalLoaders: seq<string>)
    ensures preLoaders == Collected(resource, rules, PreBucket)
    ensures postLoaders == Collected(resource, rules, PostBucket)
    ensures normalLoaders == Collected(resource, rules, NormalBucket)
  {
    preLoaders, postLoaders, normalLoaders := [], [], [];
    var i := 0;
    while i < |rules|
      invariant 0 <= i <= |rules|
      invariant preLoaders == Collected(resource, rules[..i], PreBucket)
      invariant postLoaders == Collected(resource, rules[..i], PostBucket)
      invariant normalLoaders == Collected(resource, rules[..i], NormalBucket)
    {
      var rule := rules[i];
      CollectedStep(resource, rules, i, PreBucket);
      CollectedStep(resource, rules, i, PostBucket);
      CollectedStep(resource, rules, i, NormalBucket);
      if Matches(resource, rule) {
        if rule.enforce == Some("pre") {
          preLoaders := preLoaders + rule.use;
        } else if rule.enforce == Some("post") {
          postLoaders := postLoaders + rule.use;
        } else {
          normalLoaders := normalLoaders + rule.use;
        }
      }
      i := i + 1;
    }
    assert rules[..|rules|] == rules;
  }

  /** runner.js:27-59 as the script runs it: split the stripped request, pop the resource,
      bucket the rules, pick the list by prefix, and map every name through `path.resolve`
      (here `resolve`), keeping length and order. */
  method AssembleLoaders(request: string, rules: seq<Rule>, resolve: string -> string)
    returns (resource: string, loaders: seq<string>)
    ensures resource == Assemble(request, rules).resource
    ensures |loaders| == |Assemble(request, rules).loaders|
    ensures forall i :: 0 <= i < |loaders| ==> loaders[i] == resolve(Assemble(request, rules).loaders[i])
  {
    var parts := Split(StripPrefix(request), '!');
    resource := parts[|parts| - 1];
    parts := parts[..|parts| - 1];
    var inlineLoaders := parts;
    var preLoaders, postLoaders, normalLoaders := BucketRules(resource, rules);
    var names: seq<string>;
    if StartsWith(request, "!!") {
      names := inlineLoaders;
    } else if StartsWith(request, "-!") {
      names := postLoaders + preLoaders;
    } else if StartsWith(request, "!") {
      names := postLoaders + normalLoaders + preLoaders;
    } else {
      names := postLoaders + inlineLoaders + normalLoaders + preLoaders;
    }
    assert names == Assemble(request, rules).loaders;
    loaders := seq(|names|, k requires 0 <= k < |names| => resolve(names[k]));
  }

  /** The three rules of runner.js:10-25: every one tests for a ".js" suffix. */
  const DemoRules := [
    Rule(".js", None, ["normal-loader1", "normal-loader2"]),
    Rule(".js", Some("pre"), ["pre-loader1", "pre-loader2"]),
    Rule(".js", Some("post"), ["post-loader1", "post-loader2"])]

  /** Against a ".js" resource each demo rule fills its own bucket. */
  lemma DemoBuckets(entry: string)
    requires EndsWith(entry, ".js")
    ensures Collected(entry, DemoRules, NormalBucket) == ["normal-loader1", "normal-loader2"]
    ensures Collected(entry, DemoRules, PreBucket) == ["pre-loader1", "pre-loader2"]
    ensures Collected(entry, DemoRules, PostBucket) == ["post-loader1", "post-loader2"]
  {
    var r1, r2 := DemoRules[..1], DemoRules[..2];
    assert r2[..1] == r1 && r1[..0] == [];
    assert Collected(entry, r1, NormalBucket) == DemoRules[0].use;
    assert Collected(entry, r1, PreBucket) == [];
    assert Collected(entry, r1, PostBucket) == [];
    assert Collected(entry, r2, NormalBucket) == DemoRules[0].use;
    assert Collected(entry, r2, PreBucket) == DemoRules[1].use;
    assert Collected(entry, r2, PostBucket) == [];
  }

  /** The request of runner.js:9 is its inline loaders and the entry joined with "!". */
  lemma DemoRequestPieces(entry: string)
    ensures Join(["inline-loader1", "inline-loader2", entry], '!') == "inline-loader1!inline-loader2!" + entry
  {
    var parts := ["inline-loader1", "inline-loader2", entry];
    assert parts[1..] == ["inline-loader2", entry] && parts[1..][1..] == [entry];
    assert Join([entry], '!') == entry;
    assert Join(["inline-loader2", entry], '!') == "inline-loader2" + ['!'] + entry;
  }

  /** The request of runner.js:9 against those rules: post loaders, inline loaders, normal
      loaders, pre loaders, each group in declaration order. */
  lemma DemoAssembly(entry: string, request: string)
    requires '!' !in entry && EndsWith(entry, ".js")
    requires request == "inline-loader1!inline-loader2!" + entry
    ensures Assemble(request, DemoRules).resource == entry
    ensures Assemble(request, DemoRules).loaders ==
      ["post-loader1", "post-loader2", "inline-loader1", "inline-loader2",
       "normal-loader1", "normal-loader2", "pre-loader1", "pre-loader2"]
  {
    var inline := ["inline-loader1", "inline-loader2"];
    assert inline + [entry] == ["inline-loader1", "inline-loader2", entry];
    DemoRequestPieces(entry);
    PlainRequest(inline, entry, DemoRules);
    DemoBuckets(entry);
    DemoOrder(Collected(entry, DemoRules, PostBucket), inline,
              Collected(entry, DemoRules, NormalBucket), Collected(entry, DemoRules, PreBucket));
  }

  lemma DemoOrder(post: seq<string>, inline: seq<string>, normal: seq<string>, pre: seq<string>)
    requires post == ["post-loader1", "post-loader2"] && inline == ["inline-loader1", "inline-loader2"]
    requires normal == ["normal-loader1", "normal-loader2"] && pre == ["pre-loader1", "pre-loader2"]
    ensures post + inline + normal + pre ==
      ["post-loader1", "post-loader2", "inline-loader1", "inline-loader2",
       "normal-loader1", "normal-loader2", "pre-loader1", "pre-loader2"]
  {
  }
}
