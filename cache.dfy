/** The cache check in front of generation: `generate_video_cached` of
    main.py and its twin `generate_video` of frontend/app.py. The local
    file system is the set of paths that exist; the delegate's outcome and
    the backend's reply are parameters. */
module Cache {
  import opened Common
  import opened Text
  import opened Paths
  import opened ImagesJson

  /** The three artifacts of an item, at their deterministic paths. */
  datatype Artifacts = Artifacts(videoPath: string, blogFile: string, titleFile: string)

  /** `output_base_folder/slug/{slug}.mp4`, `{slug}_blog.txt`, `{slug}_title.txt`. */
  function ArtifactsFor(outputBase: string, slug: string): Artifacts {
    var workDir := PathJoin(outputBase, slug);
    Artifacts(PathJoin(workDir, slug + ".mp4"), PathJoin(workDir, slug + "_blog.txt"),
              PathJoin(workDir, slug + "_title.txt"))
  }

  function PathList(a: Artifacts): seq<string> {
    [a.videoPath, a.blogFile, a.titleFile]
  }

  /** `all(os.path.exists(p) for p in paths)`. */
  predicate AllExist(fs: set<string>, paths: seq<string>) {
    forall i :: 0 <= i < |paths| ==> paths[i] in fs
  }

  /** `[p for p in paths if not os.path.exists(p)]`, the list the cache
      miss reports. */
  function MissingPaths(fs: set<string>, paths: seq<string>): (r: seq<string>)
    ensures |r| <= |paths|
  {
    if paths == [] then []
    else (if paths[0] in fs then [] else [paths[0]]) + MissingPaths(fs, paths[1..])
  }

  /** The missing list names exactly the paths that do not exist, so it is
      empty exactly on a cache hit. */
  lemma {:induction false} MissingPathsExact(fs: set<string>, paths: seq<string>)
    ensures forall p :: p in MissingPaths(fs, paths) <==> p in paths && p !in fs
    ensures MissingPaths(fs, paths) == [] <==> AllExist(fs, paths)
  {
    if paths != [] {
      MissingPathsExact(fs, paths[1..]);
      assert paths == [paths[0]] + paths[1..];
      if !AllExist(fs, paths) && paths[0] in fs {
        var i :| 0 <= i < |paths| && paths[i] !in fs;
        assert paths[1..][i - 1] !in fs;
      }
    }
  }

  /** The three paths are different files, whatever the folder and slug. */
  lemma ArtifactsDistinct(outputBase: string, slug: string)
    ensures var a := ArtifactsFor(outputBase, slug);
      a.videoPath != a.blogFile && a.videoPath != a.titleFile && a.blogFile != a.titleFile
  {
    var w := PathJoin(outputBase, slug);
    var a := ArtifactsFor(outputBase, slug);
    assert EndsWith(a.videoPath, ".mp4") by { EndsWithSuffix(w, slug, ".mp4"); }
    assert EndsWith(a.blogFile, "_blog.txt") by { EndsWithSuffix(w, slug, "_blog.txt"); }
    assert EndsWith(a.titleFile, "_title.txt") by { EndsWithSuffix(w, slug, "_title.txt"); }
    assert a.videoPath != a.blogFile by {
      assert "_blog.txt"[5..][1] == 't' != ".mp4"[1];
      DifferentEndings(a.videoPath, a.blogFile, ".mp4", "_blog.txt");
    }
    assert a.videoPath != a.titleFile by {
      assert "_title.txt"[6..][1] == 't' != ".mp4"[1];
      DifferentEndings(a.videoPath, a.titleFile, ".mp4", "_title.txt");
    }
    assert a.blogFile != a.titleFile by {
      assert "_title.txt"[1..][0] == 't' != "_blog.txt"[0];
      DifferentEndings(a.blogFile, a.titleFile, "_blog.txt", "_title.txt");
    }
  }

  /** Each artifact is named after the slug (for a slug without `/`),
      whatever the output folder. */
  lemma ArtifactsNamed(outputBase: string, slug: string)
    requires '/' !in slug
    ensures var a := ArtifactsFor(outputBase, slug);
      && Basename(a.videoPath) == slug + ".mp4"
      && Basename(a.blogFile) == slug + "_blog.txt"
      && Basename(a.titleFile) == slug + "_title.txt"
  {
    var w := PathJoin(outputBase, slug);
    BasenameOfName(slug);
    JoinedBasename(w, slug, ".mp4");
    JoinedBasename(w, slug, "_blog.txt");
    JoinedBasename(w, slug, "_title.txt");
  }

  /** All three artifacts exist. */
  predicate Present(fs: set<string>, a: Artifacts) {
    a.videoPath in fs && a.blogFile in fs && a.titleFile in fs
  }

  lemma AllExistPresent(fs: set<string>, a: Artifacts)
    ensures AllExist(fs, PathList(a)) <==> Present(fs, a)
  {
    if !Present(fs, a) {
      if a.videoPath !in fs { assert PathList(a)[0] !in fs; }
      else if a.blogFile !in fs { assert PathList(a)[1] !in fs; }
      else { assert PathList(a)[2] !in fs; }
    }
  }

  // ---------------------------------------------------------------------
  // main.py: generate_video_cached
  // ---------------------------------------------------------------------

  /** The first value `generate_video_cached` returns: the cached paths
      (the anonymous `Result` object) or what `generate_video` returned. */
  datatype Cached<R> = FromCache(paths: Artifacts) | Generated(result: R)

  /** `generate_video_cached(cfg, title, description, image_urls, slug, …)`
      returning `(result, cache_hit)`. `generate` is what the delegated
      `generate_video` call returns or raises; it is consulted only on a
      miss. */
  function GenerateVideoCached<R>(fs: set<string>, outputBase: string, slug: string, generate: Result<R>)
    : Result<(Cached<R>, bool)>
  {
    var a := ArtifactsFor(outputBase, slug);
    if AllExist(fs, PathList(a)) then Ok((FromCache(a), true))
    else if generate.Err? then Err(generate.error)
    else Ok((Generated(generate.value), false))
  }

  /** It is a hit exactly when all three files exist, and a hit answers the
      existing paths. */
  lemma CacheHitExactlyWhenPresent<R>(fs: set<string>, outputBase: string, slug: string, generate: Result<R>)
    ensures var r := GenerateVideoCached(fs, outputBase, slug, generate);
      var a := ArtifactsFor(outputBase, slug);
      && ((r.Ok? && r.value.1) <==> Present(fs, a))
      && (r.Ok? && r.value.1 ==> r.value.0 == FromCache(a))
  {
    AllExistPresent(fs, ArtifactsFor(outputBase, slug));
  }

  /** A hit does not depend on what generation would do: the delegate is
      never called, so a second call for an item whose outputs exist is
      answered from disk. */
  lemma CacheHitSkipsGeneration<R>(fs: set<string>, outputBase: string, slug: string, g1: Result<R>, g2: Result<R>)
    requires Present(fs, ArtifactsFor(outputBase, slug))
    ensures GenerateVideoCached(fs, outputBase, slug, g1) == GenerateVideoCached(fs, outputBase, slug, g2)
    ensures GenerateVideoCached(fs, outputBase, slug, g1).Ok?
  {
    AllExistPresent(fs, ArtifactsFor(outputBase, slug));
  }

  /** On a miss the delegate decides: its result comes back flagged as not
      cached, and what it raises (a `GenerationError` included) propagates. */
  lemma CacheMissDelegates<R>(fs: set<string>, outputBase: string, slug: string, generate: Result<R>)
    requires !Present(fs, ArtifactsFor(outputBase, slug))
    ensures var r := GenerateVideoCached(fs, outputBase, slug, generate);
      && (generate.Ok? <==> r.Ok?)
      && (generate.Ok? ==> r.value == (Generated(generate.value), false))
      && (generate.Err? ==> r.error == generate.error)
  {
    AllExistPresent(fs, ArtifactsFor(outputBase, slug));
  }

  // ---------------------------------------------------------------------
  // frontend/app.py: generate_video
  // ---------------------------------------------------------------------

  /** What the POST to the backend gives: the decoded JSON reply, or the
      text of the `RequestException` raised. */
  datatype PostReply = Replied(data: Json) | RequestFailed(reason: string)

  /** `generate_video(cfg, title, description, image_urls, slug, …)` of
      frontend/app.py as written. On a hit it executes `return data, True`
      before `data` is ever assigned, which raises `UnboundLocalError`; on
      a miss it posts and returns the reply with `False`, turning a failed
      request into `GenerationError`. */
  function FrontendGenerateVideo(fs: set<string>, outputBase: string, slug: string, post: PostReply)
    : Result<(Json, bool)>
  {
    var a := ArtifactsFor(outputBase, slug);
    if AllExist(fs, PathList(a)) then Err(UnboundLocalError("data"))
    else if post.RequestFailed? then Err(GenerationError("Request failed: " + post.reason))
    else Ok((post.data, false))
  }

  /** As written, a cache hit never returns a result: it raises, and the
      error is not a `GenerationError`. */
  lemma FrontendCacheHitRaises(fs: set<string>, outputBase: string, slug: string, post: PostReply)
    requires Present(fs, ArtifactsFor(outputBase, slug))
    ensures var r := FrontendGenerateVideo(fs, outputBase, slug, post);
      r == Err(UnboundLocalError("data")) && !r.error.GenerationError?
  {
    AllExistPresent(fs, ArtifactsFor(outputBase, slug));
  }

  /** On a miss the frontend behaves as main.py's check with the backend
      in the delegate's place: the reply comes back uncached, a failed
      request becomes a `GenerationError`, and it never reports a hit. */
  lemma FrontendMissMatchesMain(fs: set<string>, outputBase: string, slug: string, post: PostReply)
    ensures var r := FrontendGenerateVideo(fs, outputBase, slug, post);
      var g: Result<Json> := if post.Replied? then Ok(post.data) else Err(GenerationError("Request failed: " + post.reason));
      var m := GenerateVideoCached(fs, outputBase, slug, g);
      && (r.Ok? ==> !r.value.1)
      && (m.Ok? && !m.value.1 ==> r == Ok((post.data, false)))
      && (m.Err? ==> r.Err? && r.error == m.error)
  {
  }
}
