/** The handle chain of the releases API: `Releases` (one repository's release
    collection) descends to `ReleaseRef` (one release), which descends to
    `Assets` (that release's asset collection). Each handle carries the shared
    transport `github` and its identity fields, and builds its request paths by
    interpolating them into a `format!` template. A leaf operation is modelled
    by the request it hands to the transport. */
module Handles {

  import opened Wrappers
  import opened Interpolation
  import opened Options

  /** The transport verb a leaf operation calls. */
  datatype Verb = Get | Post | PostType | Patch | Delete

  /** A MIME type, passed through to the `Content-Type` header unchanged. */
  datatype Mime = Mime(essence: string)

  /** What a request carries: nothing, the JSON fields of a payload, or raw
      bytes with their content type. */
  datatype Payload = NoBody | Json(fields: seq<Field>) | Binary(bytes: seq<bv8>, contentType: Mime)

  /** The type the transport is asked to decode the response as. */
  datatype Decoded = ReleaseValue | ReleaseList | AssetValue | AssetList | Unit

  /** One call of the transport. */
  datatype Request = Request(verb: Verb, path: string, body: Payload, expects: Decoded)

  // ---------------------------------------------------------------------------
  // The `format!` templates
  // ---------------------------------------------------------------------------

  const ReleasesTemplate: string := "/repos/{}/{}/releases{}"
  const ReleaseRefTemplate: string := "/repos/{}/{}/releases/{}{}"
  const AssetsTemplate: string := "/repos/{}/{}/releases/{}/assets{}"
  const IdTemplate: string := "/{}"
  const NameQueryTemplate: string := "?name={}"

  /** The literal pieces of each template, around its `{}` placeholders. */
  const ReleasesPieces: seq<string> := ["/repos/", "/", "/releases", ""]
  const ReleaseRefPieces: seq<string> := ["/repos/", "/", "/releases/", "", ""]
  const AssetsPieces: seq<string> := ["/repos/", "/", "/releases/", "/assets", ""]

  /** The pieces hold no `{`, so only the placeholders are substituted. */
  lemma PiecesAreLiteral()
    ensures forall i :: 0 <= i < |ReleasesPieces| ==> '{' !in ReleasesPieces[i]
    ensures forall i :: 0 <= i < |ReleaseRefPieces| ==> '{' !in ReleaseRefPieces[i]
    ensures forall i :: 0 <= i < |AssetsPieces| ==> '{' !in AssetsPieces[i]
  {
  }

  // Each template is its pieces joined by `{}`, shown one piece at a time.

  lemma ReleasesTemplateFrom2()
    ensures Template(ReleasesPieces[2..]) == "/releases{}"
  {
  }

  lemma ReleasesTemplateFrom1()
    ensures Template(ReleasesPieces[1..]) == "/{}/releases{}"
  {
    ReleasesTemplateFrom2();
  }

  lemma ReleasesPiecesMakeTemplate()
    ensures Template(ReleasesPieces) == ReleasesTemplate
  {
    ReleasesTemplateFrom1();
  }

  lemma ReleaseRefTemplateFrom3()
    ensures Template(ReleaseRefPieces[3..]) == "{}"
  {
  }

  lemma ReleaseRefTemplateFrom2()
    ensures Template(ReleaseRefPieces[2..]) == "/releases/{}{}"
  {
    ReleaseRefTemplateFrom3();
  }

  lemma ReleaseRefTemplateFrom1()
    ensures Template(ReleaseRefPieces[1..]) == "/{}/releases/{}{}"
  {
    ReleaseRefTemplateFrom2();
  }

  lemma ReleaseRefPiecesMakeTemplate()
    ensures Template(ReleaseRefPieces) == ReleaseRefTemplate
  {
    ReleaseRefTemplateFrom1();
  }

  lemma AssetsTemplateFrom3()
    ensures Template(AssetsPieces[3..]) == "/assets{}"
  {
  }

  lemma AssetsTemplateFrom2()
    ensures Template(AssetsPieces[2..]) == "/releases/{}/assets{}"
  {
    AssetsTemplateFrom3();
  }

  lemma AssetsTemplateFrom1()
    ensures Template(AssetsPieces[1..]) == "/{}/releases/{}/assets{}"
  {
    AssetsTemplateFrom2();
  }

  lemma AssetsPiecesMakeTemplate()
    ensures Template(AssetsPieces) == AssetsTemplate
  {
    AssetsTemplateFrom1();
  }

  lemma ReleasesInterleave(owner: string, repo: string, more: string)
    ensures Interleave(ReleasesPieces, [owner, repo, more]) ==
      "/repos/" + owner + "/" + repo + "/releases" + more
  {
    var lits, args := ReleasesPieces, [owner, repo, more];
    assert Interleave(lits[3..], args[3..]) == "";
    assert Interleave(lits[2..], args[2..]) == "/releases" + more + "";
    assert Interleave(lits[1..], args[1..]) == "/" + repo + ("/releases" + more + "");
    assert Interleave(lits, args) == "/repos/" + owner + ("/" + repo + ("/releases" + more + ""));
  }

  lemma ReleaseRefInterleave(owner: string, repo: string, id: string, more: string)
    ensures Interleave(ReleaseRefPieces, [owner, repo, id, more]) ==
      "/repos/" + owner + "/" + repo + "/releases/" + id + more
  {
    var lits, args := ReleaseRefPieces, [owner, repo, id, more];
    assert Interleave(lits[4..], args[4..]) == "";
    assert Interleave(lits[3..], args[3..]) == "" + more + "";
    assert Interleave(lits[2..], args[2..]) == "/releases/" + id + ("" + more + "");
    assert Interleave(lits[1..], args[1..]) == "/" + repo + ("/releases/" + id + ("" + more + ""));
    assert Interleave(lits, args) == "/repos/" + owner + ("/" + repo + ("/releases/" + id + ("" + more + "")));
  }

  lemma AssetsInterleave(owner: string, repo: string, id: string, more: string)
    ensures Interleave(AssetsPieces, [owner, repo, id, more]) ==
      "/repos/" + owner + "/" + repo + "/releases/" + id + "/assets" + more
  {
    var lits, args := AssetsPieces, [owner, repo, id, more];
    assert Interleave(lits[4..], args[4..]) == "";
    assert Interleave(lits[3..], args[3..]) == "/assets" + more + "";
    assert Interleave(lits[2..], args[2..]) == "/releases/" + id + ("/assets" + more + "");
    assert Interleave(lits[1..], args[1..]) == "/" + repo + ("/releases/" + id + ("/assets" + more + ""));
    assert Interleave(lits, args) == "/repos/" + owner + ("/" + repo + ("/releases/" + id + ("/assets" + more + "")));
  }

  /** `format!("/repos/{}/{}/releases{}", owner, repo, more)`. */
  lemma ReleasesTemplateFormats(owner: string, repo: string, more: string)
    ensures Holes(ReleasesTemplate) == 3
    ensures Format(ReleasesTemplate, [owner, repo, more]) ==
      "/repos/" + owner + "/" + repo + "/releases" + more
  {
    ReleasesPiecesMakeTemplate();
    PiecesAreLiteral();
    FormatIsInterpolation(ReleasesPieces, [owner, repo, more]);
    ReleasesInterleave(owner, repo, more);
  }

  /** `format!("/repos/{}/{}/releases/{}{}", owner, repo, id, more)`. */
  lemma ReleaseRefTemplateFormats(owner: string, repo: string, id: string, more: string)
    ensures Holes(ReleaseRefTemplate) == 4
    ensures Format(ReleaseRefTemplate, [owner, repo, id, more]) ==
      "/repos/" + owner + "/" + repo + "/releases/" + id + more
  {
    ReleaseRefPiecesMakeTemplate();
    PiecesAreLiteral();
    FormatIsInterpolation(ReleaseRefPieces, [owner, repo, id, more]);
    ReleaseRefInterleave(owner, repo, id, more);
  }

  /** `format!("/repos/{}/{}/releases/{}/assets{}", owner, repo, id, more)`. */
  lemma AssetsTemplateFormats(owner: string, repo: string, id: string, more: string)
    ensures Holes(AssetsTemplate) == 4
    ensures Format(AssetsTemplate, [owner, repo, id, more]) ==
      "/repos/" + owner + "/" + repo + "/releases/" + id + "/assets" + more
  {
    AssetsPiecesMakeTemplate();
    PiecesAreLiteral();
    FormatIsInterpolation(AssetsPieces, [owner, repo, id, more]);
    AssetsInterleave(owner, repo, id, more);
  }

  /** `format!("/{}", id)`: the suffix naming one member of a collection. */
  function IdSuffix(id: U64): (s: string)
    ensures s == "/" + Dec(id)
  {
    var lits := ["/", ""];
    assert Template(lits) == IdTemplate;
    FormatIsInterpolation(lits, [Dec(id)]);
    Format(IdTemplate, [Dec(id)])
  }

  /** `format!("?name={}", name)`: the upload query, the name copied verbatim. */
  function NameQuery(name: string): (s: string)
    ensures s == "?name=" + name
  {
    var lits := ["?name=", ""];
    assert Template(lits) == NameQueryTemplate;
    FormatIsInterpolation(lits, [name]);
    Format(NameQueryTemplate, [name])
  }

  /** The collection path followed by `/{id}` is the member path. */
  lemma MemberPath(repoPath: string, id: string)
    ensures repoPath + "/releases" + ("/" + id) == repoPath + "/releases/" + id
  {
    AppendAssoc(repoPath + "/releases", "/", id);
    AppendAssoc(repoPath, "/releases", "/");
    assert "/releases" + "/" == "/releases/";
  }

  // ---------------------------------------------------------------------------
  // The handles' constructors (`Releases::new`, `ReleaseRef::new`, `Assets::new`)
  // ---------------------------------------------------------------------------

  /** `Releases::new`: stores the transport and the repository coordinates. */
  function NewReleases<G>(github: G, owner: string, repo: string): (h: Releases<G>)
    ensures h.github == github && h.owner == owner && h.repo == repo
  {
    Releases(github, owner, repo)
  }

  /** `ReleaseRef::new`: stores the transport, the coordinates and the release id. */
  function NewReleaseRef<G>(github: G, owner: string, repo: string, id: U64): (h: ReleaseRef<G>)
    ensures h.github == github && h.owner == owner && h.repo == repo && h.id == id
  {
    ReleaseRef(github, owner, repo, id)
  }

  /** `Assets::new`: stores the transport, the coordinates and the release id. */
  function NewAssets<G>(github: G, owner: string, repo: string, releaseId: U64): (h: Assets<G>)
    ensures h.github == github && h.owner == owner && h.repo == repo && h.releaseId == releaseId
  {
    Assets(github, owner, repo, releaseId)
  }

  // ---------------------------------------------------------------------------
  // Assets
  // ---------------------------------------------------------------------------

  /** The asset collection of release `releaseId` of `owner/repo`. */
  datatype Assets<G> = Assets(github: G, owner: string, repo: string, releaseId: U64)
  {
    function Path(more: string): (p: string)
      ensures p == "/repos/" + owner + "/" + repo + "/releases/" + Dec(releaseId) + "/assets" + more
    {
      AssetsTemplateFormats(owner, repo, Dec(releaseId), more);
      Format(AssetsTemplate, [owner, repo, Dec(releaseId), more])
    }

    /** Upload: the content is read to its end first; a failed read aborts the
        call before any request is made, otherwise one binary POST carries all
        the bytes read, with the given content type. */
    function Post(name: string, read: Option<seq<bv8>>, mime: Mime): (r: Option<Request>)
      ensures read.None? ==> r.None?
      ensures read.Some? ==> r == Some(Request(
        Verb.PostType,
        "/repos/" + owner + "/" + repo + "/releases/" + Dec(releaseId) + "/assets" + "?name=" + name,
        Binary(read.value, mime),
        AssetValue))
    {
      match read
      case None => None
      case Some(buffer) =>
        var base := "/repos/" + owner + "/" + repo + "/releases/" + Dec(releaseId) + "/assets";
        AppendAssoc(base, "?name=", name);
        Some(Request(Verb.PostType, Path(NameQuery(name)), Binary(buffer, mime), AssetValue))
    }

    function Get(id: U64): (r: Request)
      ensures r == Request(Verb.Get,
        "/repos/" + owner + "/" + repo + "/releases/" + Dec(releaseId) + "/assets" + "/" + Dec(id),
        NoBody, AssetValue)
    {
      var base := "/repos/" + owner + "/" + repo + "/releases/" + Dec(releaseId) + "/assets";
      AppendAssoc(base, "/", Dec(id));
      Request(Verb.Get, Path(IdSuffix(id)), NoBody, AssetValue)
    }

    function Delete(id: U64): (r: Request)
      ensures r == Request(Verb.Delete,
        "/repos/" + owner + "/" + repo + "/releases/" + Dec(releaseId) + "/assets" + "/" + Dec(id),
        NoBody, Unit)
    {
      var base := "/repos/" + owner + "/" + repo + "/releases/" + Dec(releaseId) + "/assets";
      AppendAssoc(base, "/", Dec(id));
      Request(Verb.Delete, Path(IdSuffix(id)), NoBody, Unit)
    }

    function List(): (r: Request)
      ensures r == Request(Verb.Get,
        "/repos/" + owner + "/" + repo + "/releases/" + Dec(releaseId) + "/assets",
        NoBody, AssetList)
    {
      Request(Verb.Get, Path(""), NoBody, AssetList)
    }
  }

  // ---------------------------------------------------------------------------
  // ReleaseRef
  // ---------------------------------------------------------------------------

  /** Release `id` of `owner/repo`. */
  datatype ReleaseRef<G> = ReleaseRef(github: G, owner: string, repo: string, id: U64)
  {
    function Path(more: string): (p: string)
      ensures p == "/repos/" + owner + "/" + repo + "/releases/" + Dec(id) + more
    {
      ReleaseRefTemplateFormats(owner, repo, Dec(id), more);
      Format(ReleaseRefTemplate, [owner, repo, Dec(id), more])
    }

    function Get(): (r: Request)
      ensures r == Request(Verb.Get, "/repos/" + owner + "/" + repo + "/releases/" + Dec(id),
                           NoBody, ReleaseValue)
    {
      Request(Verb.Get, Path(""), NoBody, ReleaseValue)
    }

    /** Descend to this release's assets: no request; the transport and the
        identity are handed down, and every asset path extends this release's
        path by `/assets`. */
    function Assets(): (a: Assets<G>)
      ensures a.github == github && a.owner == owner && a.repo == repo && a.releaseId == id
      ensures forall more :: a.Path(more) == Path("/assets" + more)
    {
      NewAssets(github, owner, repo, id)
    }
  }

  // ---------------------------------------------------------------------------
  // Releases
  // ---------------------------------------------------------------------------

  /** The release collection of `owner/repo`. */
  datatype Releases<G> = Releases(github: G, owner: string, repo: string)
  {
    function Path(more: string): (p: string)
      ensures p == "/repos/" + owner + "/" + repo + "/releases" + more
    {
      ReleasesTemplateFormats(owner, repo, more);
      Format(ReleasesTemplate, [owner, repo, more])
    }

    function Create(rel: ReleaseOptions): (r: Request)
      ensures r == Request(Verb.Post, "/repos/" + owner + "/" + repo + "/releases",
                           Json(Serialize(rel)), ReleaseValue)
    {
      Request(Verb.Post, Path(""), Json(Serialize(rel)), ReleaseValue)
    }

    function Edit(id: U64, rel: ReleaseOptions): (r: Request)
      ensures r == Request(Verb.Patch, "/repos/" + owner + "/" + repo + "/releases/" + Dec(id),
                           Json(Serialize(rel)), ReleaseValue)
    {
      MemberPath("/repos/" + owner + "/" + repo, Dec(id));
      Request(Verb.Patch, Path(IdSuffix(id)), Json(Serialize(rel)), ReleaseValue)
    }

    function Delete(id: U64): (r: Request)
      ensures r == Request(Verb.Delete, "/repos/" + owner + "/" + repo + "/releases/" + Dec(id),
                           NoBody, Unit)
    {
      MemberPath("/repos/" + owner + "/" + repo, Dec(id));
      Request(Verb.Delete, Path(IdSuffix(id)), NoBody, Unit)
    }

    function List(): (r: Request)
      ensures r == Request(Verb.Get, "/repos/" + owner + "/" + repo + "/releases", NoBody, ReleaseList)
    {
      Request(Verb.Get, Path(""), NoBody, ReleaseList)
    }

    /** Descend to one release: no request; the transport and the identity
        are handed down, and every path of the release extends the collection
        path by `/{id}`. */
    function Get(id: U64): (h: ReleaseRef<G>)
      ensures h.github == github && h.owner == owner && h.repo == repo && h.id == id
      ensures forall more :: h.Path(more) == Path("/" + Dec(id) + more)
    {
      NewReleaseRef(github, owner, repo, id)
    }
  }

  // ---------------------------------------------------------------------------
  // Properties of the chain
  // ---------------------------------------------------------------------------

  /** Every handle appends the operation's suffix verbatim to its base path. */
  lemma PathsAppendVerbatim<G>(rs: Releases<G>, rr: ReleaseRef<G>, a: Assets<G>, more: string)
    ensures rs.Path(more) == rs.Path("") + more
    ensures rr.Path(more) == rr.Path("") + more
    ensures a.Path(more) == a.Path("") + more
  {
    AppendEmpty("/repos/" + rs.owner + "/" + rs.repo + "/releases");
    AppendEmpty("/repos/" + rr.owner + "/" + rr.repo + "/releases/" + Dec(rr.id));
    AppendEmpty("/repos/" + a.owner + "/" + a.repo + "/releases/" + Dec(a.releaseId) + "/assets");
  }

  /** Two descents from a repository's releases reach the asset collection of
      that release: same transport, same repository, the release id as given,
      and the base path `/repos/{owner}/{repo}/releases/{id}/assets`. */
  lemma DescentReachesAssets<G>(g: G, owner: string, repo: string, id: U64)
    ensures NewReleases(g, owner, repo).Get(id).Assets() == Assets(g, owner, repo, id)
    ensures NewReleases(g, owner, repo).Get(id).Assets().Path("") ==
      "/repos/" + owner + "/" + repo + "/releases/" + Dec(id) + "/assets"
  {
    AppendEmpty("/repos/" + owner + "/" + repo + "/releases/" + Dec(id) + "/assets");
  }

  /** Deleting release 42 of `o/r` is one DELETE of `/repos/o/r/releases/42`. */
  lemma DeleteExample<G>(g: G)
    ensures NewReleases(g, "o", "r").Delete(42) == Request(Verb.Delete, "/repos/o/r/releases/42", NoBody, Unit)
  {
    assert Dec(42) == "42";
    assert "/repos/" + "o" + "/" + "r" + "/releases/" + "42" == "/repos/o/r/releases/42";
  }

  /** Uploading five bytes read from the source as `asset.bin` is one binary
      POST whose query names the asset, carrying those five bytes and the given
      type; when the read fails, nothing is sent. */
  lemma UploadExample<G>(a: Assets<G>, bytes: seq<bv8>)
    requires |bytes| == 5
    ensures a.Post("asset.bin", None, Mime("application/octet-stream")).None?
    ensures var r := a.Post("asset.bin", Some(bytes), Mime("application/octet-stream"));
      && r.Some? && r.value.verb == Verb.PostType
      && r.value.path == a.Path("") + "?name=asset.bin"
      && r.value.body.bytes == bytes && |r.value.body.bytes| == 5
      && r.value.body.contentType == Mime("application/octet-stream")
  {
    var base := "/repos/" + a.owner + "/" + a.repo + "/releases/" + Dec(a.releaseId) + "/assets";
    AppendEmpty(base);
    AppendAssoc(base, "?name=", "asset.bin");
    assert "?name=" + "asset.bin" == "?name=asset.bin";
    assert base + "?name=" + "asset.bin" == a.Path("") + "?name=asset.bin";
  }

  /** The single-release GET, the edit and the delete of that release all
      target the same path, the collection path followed by `/{id}`. */
  lemma ReleaseRoutesAgree<G>(rs: Releases<G>, id: U64, rel: ReleaseOptions)
    ensures rs.Get(id).Path("") == rs.Path("/" + Dec(id))
    ensures rs.Get(id).Get().path == rs.Edit(id, rel).path == rs.Delete(id).path
  {
  }

  /** The asset routes of one release: listing targets the collection path,
      and a single asset's GET and DELETE target that path followed by `/{id}`. */
  lemma AssetRoutesAgree<G>(a: Assets<G>, id: U64)
    ensures a.List().path == a.Path("")
    ensures a.Get(id).path == a.Delete(id).path == a.Path("") + "/" + Dec(id)
  {
  }

  /** Within one repository, different releases have different paths. */
  lemma {:induction false} ReleasePathsDistinguishIds<G>(rs: Releases<G>, i: U64, j: U64)
    ensures rs.Delete(i).path == rs.Delete(j).path ==> i == j
  {
    var p := "/repos/" + rs.owner + "/" + rs.repo + "/releases/";
    assert rs.Delete(i).path == p + Dec(i);
    assert rs.Delete(j).path == p + Dec(j);
    assert Dec(i) == (p + Dec(i))[|p|..];
    assert Dec(j) == (p + Dec(j))[|p|..];
    if rs.Delete(i).path == rs.Delete(j).path {
      DecInjective(i, j);
    }
  }

  /** Within one release, different assets have different paths. */
  lemma {:induction false} AssetPathsDistinguishIds<G>(a: Assets<G>, i: U64, j: U64)
    ensures a.Get(i).path == a.Get(j).path ==> i == j
  {
    var p := "/repos/" + a.owner + "/" + a.repo + "/releases/" + Dec(a.releaseId) + "/assets" + "/";
    assert a.Get(i).path == p + Dec(i);
    assert a.Get(j).path == p + Dec(j);
    assert Dec(i) == (p + Dec(i))[|p|..];
    assert Dec(j) == (p + Dec(j))[|p|..];
    if a.Get(i).path == a.Get(j).path {
      DecInjective(i, j);
    }
  }

  /** Owner and repository are interpolated without escaping, so a `/` inside
      them is not told apart from the separator: two different repository
      coordinates can address the same collection. */
  lemma UnescapedCoordinatesCollide<G>(g: G)
    ensures Releases(g, "a/b", "c").Path("") == Releases(g, "a", "b/c").Path("")
  {
    assert "/repos/" + "a/b" + "/" + "c" + "/releases" + "" == "/repos/a/b/c/releases";
    assert "/repos/" + "a" + "/" + "b/c" + "/releases" + "" == "/repos/a/b/c/releases";
  }
}
