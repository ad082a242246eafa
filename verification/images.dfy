/** The bookkeeping of backend/image_generator.py: the images endpoint URL,
    which payload of a generation response is used, and which result paths
    a mode gets. The HTTP calls, base64 decoding, the bearer token and the
    file writes are parameters; the three requests run concurrently in the
    source, which does not affect the result. */
module Images {
  import opened Wrappers
  import opened Strings
  import opened Json

  type Bytes = seq<bv8>

  const ApiVersion := "2024-06-01"
  const GenerationsPath := "/images/generations?api-version=2024-06-01"
  const DeploymentsPath := "/openai/deployments/"

  /** `endpoint.rstrip("/").removesuffix("/models")` */
  function ImageBase(endpoint: string): (base: string)
    ensures StartsWith(endpoint, base)
  {
    var trimmed := TrimEndChar(endpoint, '/');
    var base := RemoveSuffix(trimmed, "/models");
    assert trimmed[..|base|] == base;
    base
  }

  /** _get_image_url */
  function ImageUrl(endpoint: string, deployment: string): (url: string)
    ensures StartsWith(url, ImageBase(endpoint) + DeploymentsPath)
    ensures EndsWith(url, GenerationsPath)
    ensures |url| == |ImageBase(endpoint)| + |DeploymentsPath| + |deployment| + |GenerationsPath|
  {
    var head := ImageBase(endpoint) + DeploymentsPath;
    var url := head + deployment + GenerationsPath;
    assert url[..|head|] == head;
    assert url[|url| - |GenerationsPath|..] == GenerationsPath;
    url
  }

  /** The deployment name sits between the two fixed parts of the URL. */
  lemma ImageUrlDeployment(endpoint: string, deployment: string)
    ensures var url := ImageUrl(endpoint, deployment);
      var from := |ImageBase(endpoint)| + |DeploymentsPath|;
      url[from..from + |deployment|] == deployment
  {
    var head := ImageBase(endpoint) + DeploymentsPath;
    var url := ImageUrl(endpoint, deployment);
    assert url == head + deployment + GenerationsPath;
    assert url[|head|..|head| + |deployment|] == deployment;
  }

  /** A project endpoint `<base>/models/` gives `<base>`. */
  lemma {:induction false} ProjectEndpoint(base: string)
    requires |base| == 0 || base[|base| - 1] != '/'
    ensures ImageBase(base + "/models/") == base
  {
    var e := base + "/models/";
    assert e[..|e| - 1] == base + "/models";
    assert TrimEndChar(e, '/') == TrimEndChar(base + "/models", '/');
    assert TrimEndChar(base + "/models", '/') == base + "/models";
    assert (base + "/models")[|base|..] == "/models";
    assert (base + "/models")[..|base|] == base;
  }

  /** Only one trailing "/models" is removed. */
  lemma OnlyOneModelsSuffix(base: string)
    ensures ImageBase(base + "/models/models") == base + "/models"
  {
    var e := base + "/models/models";
    assert e[|e| - 1] == 's';
    assert e[|e| - 7..] == "/models";
    assert e[..|e| - 7] == base + "/models";
  }

  // ---------------------------------------------------------------------
  // Response selection

  /** Where the image bytes of a response come from. */
  datatype Source = Base64(payload: string) | Link(url: string) | NoImage

  /** The first item of a truthy `data` value, or None when indexing it or
      calling `.get` on the item raises. Only a list yields an item; a
      string, number, bool or non-empty object raises there. */
  function FirstItem(data: Json): (r: Option<Object>)
    ensures r.Some? <==> data.JArr? && |data.items| > 0 && data.items[0].JObj?
    ensures r.Some? ==> r.value == data.items[0].fields
  {
    match data
    case JArr(items) =>
      if |items| > 0 && items[0].JObj? then Some(items[0].fields) else None
    case _ => None
  }

  /** The payload `_generate_image` uses: `b64_json` when it is truthy, else
      `url` when that is truthy, else nothing. None stands for a response
      whose reading raises (not an object, a non-list `data`, a non-object
      item, a truthy non-string payload). */
  function ChooseSource(body: Json): (r: Option<Source>)
    ensures !body.JObj? ==> r.None?
    ensures body.JObj? && !Truthy(GetOr(body.fields, "data", JArr([]))) ==> r == Some(NoImage)
    ensures r.Some? && r.value.Base64? ==>
      exists item :: FirstItem(GetOr(body.fields, "data", JArr([]))) == Some(item)
        && Get(item, "b64_json") == Some(JStr(r.value.payload)) && r.value.payload != ""
    ensures r.Some? && r.value.Link? ==>
      exists item :: FirstItem(GetOr(body.fields, "data", JArr([]))) == Some(item)
        && !Truthy(GetOr(item, "b64_json", JNull))
        && Get(item, "url") == Some(JStr(r.value.url)) && r.value.url != ""
  {
    if !body.JObj? then None
    else
      var data := GetOr(body.fields, "data", JArr([]));
      if !Truthy(data) then Some(NoImage)
      else match FirstItem(data)
        case None => None
        case Some(item) => PickPayload(item)
  }

  /** The `b64_json`-then-`url` choice for one item. */
  function PickPayload(item: Object): (r: Option<Source>)
    ensures r.Some? && r.value.Base64? ==>
      Get(item, "b64_json") == Some(JStr(r.value.payload)) && r.value.payload != ""
    ensures r.Some? && r.value.Link? ==>
      !Truthy(GetOr(item, "b64_json", JNull))
      && Get(item, "url") == Some(JStr(r.value.url)) && r.value.url != ""
    ensures r == Some(NoImage) <==>
      !Truthy(GetOr(item, "b64_json", JNull)) && !Truthy(GetOr(item, "url", JNull))
  {
    var b64 := GetOr(item, "b64_json", JNull);
    var url := GetOr(item, "url", JNull);
    if Truthy(b64) then (if b64.JStr? then Some(Base64(b64.s)) else None)
    else if Truthy(url) then (if url.JStr? then Some(Link(url.s)) else None)
    else Some(NoImage)
  }

  /** A truthy base64 payload wins over any url. */
  lemma Base64Preferred(item: Object, payload: string)
    requires Get(item, "b64_json") == Some(JStr(payload)) && payload != ""
    ensures PickPayload(item) == Some(Base64(payload))
  {
  }

  /** _generate_image: the image bytes, or None on any failure. `response`
      is the decoded body of a successful POST (None for a transport error,
      an error status or an undecodable body); `decode` is
      `base64.b64decode` and `fetch` the GET of an image URL. */
  function GenerateImage(response: Option<Json>, decode: string -> Option<Bytes>,
                         fetch: string -> Option<Bytes>): (r: Option<Bytes>)
    ensures response.None? ==> r.None?
    ensures r.Some? ==> exists s :: ChooseSource(response.value) == Some(s) && !s.NoImage?
    ensures response.Some? && ChooseSource(response.value) == Some(NoImage) ==> r.None?
    ensures response.Some? && ChooseSource(response.value).Some? && ChooseSource(response.value).value.Base64? ==>
      r == decode(ChooseSource(response.value).value.payload)
    ensures response.Some? && ChooseSource(response.value).Some? && ChooseSource(response.value).value.Link? ==>
      r == fetch(ChooseSource(response.value).value.url)
  {
    match response
    case None => None
    case Some(body) =>
      match ChooseSource(body)
      case None => None
      case Some(NoImage) => None
      case Some(Base64(p)) => decode(p)
      case Some(Link(u)) => fetch(u)
  }

  /** A response without data yields no image. */
  lemma EmptyDataNoImage(fields: Object, decode: string -> Option<Bytes>, fetch: string -> Option<Bytes>)
    requires "data" !in fields || fields["data"] == JArr([])
    ensures GenerateImage(Some(JObj(fields)), decode, fetch).None?
  {
  }

  // ---------------------------------------------------------------------
  // The three images of a mode

  datatype ImageKind = Background | Hero | ChatImage

  const Kinds: seq<ImageKind> := [Background, Hero, ChatImage]

  function Key(k: ImageKind): string {
    match k
    case Background => "background_image"
    case Hero => "hero_image"
    case ChatImage => "chat_image"
  }

  function Suffix(k: ImageKind): string {
    match k
    case Background => "background"
    case Hero => "hero"
    case ChatImage => "chat"
  }

  /** The size each kind of image is requested at. */
  function Size(k: ImageKind): string {
    match k
    case Background => "1024x768"
    case Hero => "768x768"
    case ChatImage => "768x1024"
  }

  /** `{mode_id}_{suffix}.png`, the file written under the images folder. */
  function FileName(modeId: string, k: ImageKind): string {
    modeId + "_" + Suffix(k) + ".png"
  }

  /** The URL path a saved image is served from. */
  function ImagePath(modeId: string, k: ImageKind): (r: string)
    ensures StartsWith(r, "/images/" + modeId + "_") && EndsWith(r, ".png")
  {
    var r := "/images/" + FileName(modeId, k);
    assert r == "/images/" + modeId + "_" + Suffix(k) + ".png";
    r
  }

  /** The three parts of a prompt around the industry and the colour. */
  function Lead(k: ImageKind): string {
    match k
    case Background => "Abstract subtle background texture for a "
    case Hero => "Professional, modern illustration representing the "
    case ChatImage => "Dark abstract watercolor texture with rich "
  }

  function Middle(k: ImageKind): string {
    match k
    case Background => " business dashboard. Soft, muted tones inspired by "
    case Hero => " industry. Clean design with colors inspired by "
    case ChatImage => " themed elements. Deep jewel tones with accents of "
  }

  function Tail(k: ImageKind, companyName: string): string {
    match k
    case Background =>
      ". Minimal, low-contrast, professional. No text, no logos, no people. "
      + "Suitable as a background behind overlaid text and UI elements."
    case Hero => ". No text, no logos. Suitable as a hero image for a " + companyName + " business dashboard."
    case ChatImage =>
      ". Moody but colorful, like a dark wallpaper. No text, no logos, no people. "
      + "Painterly, artistic, atmospheric."
  }

  /** `a + x + b + y + c`, with `x` and `y` found where they were put. */
  function Compose(a: string, x: string, b: string, y: string, c: string): (r: string)
    ensures OccursAt(r, x, |a|)
    ensures OccursAt(r, y, |a| + |x| + |b|)
  {
    var r := a + x + b + y + c;
    assert r[|a|..|a| + |x|] == x;
    assert r[|a| + |x| + |b|..|a| + |x| + |b| + |y|] == y;
    r
  }

  /** One `_generate_image` call: the kind of image, the size asked for and
      what its prompt mentions. The payload it posts is `PromptText(r)` with
      `r.size`. */
  datatype ImageRequest = ImageRequest(kind: ImageKind, size: string, industryName: string, companyName: string,
                                       primaryColor: string)

  /** The request generate_mode_images makes for one kind of image. */
  function RequestFor(k: ImageKind, industryName: string, companyName: string, primaryColor: string): (r: ImageRequest)
    ensures r.kind == k && r.size == Size(k)
    ensures r.industryName == industryName && r.companyName == companyName && r.primaryColor == primaryColor
  {
    ImageRequest(k, Size(k), industryName, companyName, primaryColor)
  }

  /** The prompt of one image names the lower-cased industry and the
      primary colour. */
  function PromptText(r: ImageRequest): (p: string)
    ensures Contains(p, Lower(r.industryName)) && Contains(p, r.primaryColor)
  {
    var k := r.kind;
    var p := Compose(Lead(k), Lower(r.industryName), Middle(k), r.primaryColor, Tail(k, r.companyName));
    ContainsAt(p, Lower(r.industryName), |Lead(k)|);
    ContainsAt(p, r.primaryColor, |Lead(k)| + |r.industryName| + |Middle(k)|);
    p
  }

  /** The result dictionary: its three keys `background_image`,
      `hero_image` and `chat_image` are the three fields. */
  datatype ImagePaths = ImagePaths(background: Option<string>, hero: Option<string>, chat: Option<string>)

  const Unset := ImagePaths(None, None, None)

  function PathOf(r: ImagePaths, k: ImageKind): Option<string> {
    match k
    case Background => r.background
    case Hero => r.hero
    case ChatImage => r.chat
  }

  function WithPath(r: ImagePaths, k: ImageKind, path: string): (s: ImagePaths)
    ensures PathOf(s, k) == Some(path)
    ensures forall j :: j != k ==> PathOf(s, j) == PathOf(r, j)
  {
    match k
    case Background => r.(background := Some(path))
    case Hero => r.(hero := Some(path))
    case ChatImage => r.(chat := Some(path))
  }

  /** `if bytes:`, a successful non-empty image. */
  predicate Generated(b: Option<Bytes>) {
    b.Some? && |b.value| > 0
  }

  /** The paths recorded so far, and whether a write raised (which skips
      every later step). */
  datatype Saving = Saving(paths: ImagePaths, aborted: bool)

  /** One `if x_bytes:` block: write the file, then record its path. */
  function SaveOne(s: Saving, modeId: string, k: ImageKind, bytes: Option<Bytes>, write: string -> bool): (t: Saving)
    ensures forall j :: j != k ==> PathOf(t.paths, j) == PathOf(s.paths, j)
    ensures PathOf(t.paths, k) == PathOf(s.paths, k)
      || (PathOf(t.paths, k) == Some(ImagePath(modeId, k))
          && !s.aborted && Generated(bytes) && write(FileName(modeId, k)))
    ensures !s.aborted && Generated(bytes) && write(FileName(modeId, k)) ==>
      PathOf(t.paths, k) == Some(ImagePath(modeId, k))
    ensures t.aborted <==> s.aborted || (Generated(bytes) && !write(FileName(modeId, k)))
  {
    if s.aborted || !Generated(bytes) then s
    else if !write(FileName(modeId, k)) then Saving(s.paths, true)
    else Saving(WithPath(s.paths, k, ImagePath(modeId, k)), false)
  }

  /** The three `if x_bytes:` blocks in order, on the generated bytes. */
  function SaveAll(modeId: string, bytes: ImageKind -> Option<Bytes>, write: string -> bool): (r: ImagePaths)
    ensures forall k :: PathOf(r, k).Some? ==>
      PathOf(r, k) == Some(ImagePath(modeId, k)) && Generated(bytes(k)) && write(FileName(modeId, k))
  {
    var s1 := SaveOne(Saving(Unset, false), modeId, Background, bytes(Background), write);
    var s2 := SaveOne(s1, modeId, Hero, bytes(Hero), write);
    SaveOne(s2, modeId, ChatImage, bytes(ChatImage), write).paths
  }

  /** A recorded path is the kind's own, for an image that was generated
      and written. */
  lemma SaveAllAt(modeId: string, bytes: ImageKind -> Option<Bytes>, write: string -> bool, k: ImageKind)
    ensures var p := PathOf(SaveAll(modeId, bytes, write), k);
      (p == None || p == Some(ImagePath(modeId, k)))
      && (p.Some? ==> Generated(bytes(k)) && write(FileName(modeId, k)))
  {
    var s1 := SaveOne(Saving(Unset, false), modeId, Background, bytes(Background), write);
    var s2 := SaveOne(s1, modeId, Hero, bytes(Hero), write);
    var s3 := SaveOne(s2, modeId, ChatImage, bytes(ChatImage), write);
    assert SaveAll(modeId, bytes, write) == s3.paths;
    match k
    case Background =>
      assert PathOf(s3.paths, k) == PathOf(s2.paths, k) == PathOf(s1.paths, k);
    case Hero =>
      assert PathOf(s3.paths, k) == PathOf(s2.paths, k);
      assert PathOf(s1.paths, k) == None;
    case ChatImage =>
      assert PathOf(s2.paths, k) == PathOf(s1.paths, k) == None;
  }

  /** When every write succeeds, an image has a path exactly when it was
      generated. */
  lemma SaveAllIff(modeId: string, bytes: ImageKind -> Option<Bytes>, write: string -> bool, k: ImageKind)
    requires forall f :: write(f)
    ensures PathOf(SaveAll(modeId, bytes, write), k).Some? <==> Generated(bytes(k))
  {
    var s1 := SaveOne(Saving(Unset, false), modeId, Background, bytes(Background), write);
    var s2 := SaveOne(s1, modeId, Hero, bytes(Hero), write);
    assert !s1.aborted && !s2.aborted;
  }

  /** A failed background write loses the other two images as well. */
  lemma SaveAllAbandons(modeId: string, bytes: ImageKind -> Option<Bytes>, write: string -> bool)
    requires Generated(bytes(Background)) && !write(FileName(modeId, Background))
    ensures SaveAll(modeId, bytes, write) == Unset
  {
  }

  /** generate_mode_images. `ready` is false when creating the folder or
      obtaining the token raises; `generate` stands for `_generate_image`
      on a request; `write` says whether writing a file succeeds. */
  function GenerateModeImages(modeId: string, industryName: string, companyName: string, primaryColor: string,
                              ready: bool, generate: ImageRequest -> Option<Bytes>,
                              write: string -> bool): (r: ImagePaths)
    ensures forall k :: PathOf(r, k) == None || PathOf(r, k) == Some(ImagePath(modeId, k))
    ensures forall k :: PathOf(r, k).Some? ==>
      ready && Generated(generate(RequestFor(k, industryName, companyName, primaryColor)))
      && write(FileName(modeId, k))
    ensures !ready ==> r == Unset
    ensures ready && (forall f :: write(f)) ==>
      forall k :: PathOf(r, k).Some? <==> Generated(generate(RequestFor(k, industryName, companyName, primaryColor)))
    ensures (Generated(generate(RequestFor(Background, industryName, companyName, primaryColor)))
             && !write(FileName(modeId, Background))) ==> r == Unset
  {
    if !ready then Unset
    else
      var b := (k: ImageKind) => generate(RequestFor(k, industryName, companyName, primaryColor));
      var r := SaveAll(modeId, b, write);
      assert forall k :: (PathOf(r, k) == None || PathOf(r, k) == Some(ImagePath(modeId, k)))
                         && (PathOf(r, k).Some? ==> Generated(b(k)) && write(FileName(modeId, k))) by {
        forall k: ImageKind
          ensures (PathOf(r, k) == None || PathOf(r, k) == Some(ImagePath(modeId, k)))
                  && (PathOf(r, k).Some? ==> Generated(b(k)) && write(FileName(modeId, k)))
        {
          SaveAllAt(modeId, b, write, k);
        }
      }
      assert (forall f :: write(f)) ==> forall k :: PathOf(r, k).Some? <==> Generated(b(k)) by {
        if forall f :: write(f) {
          forall k: ImageKind
            ensures PathOf(r, k).Some? <==> Generated(b(k))
          {
            SaveAllIff(modeId, b, write, k);
          }
        }
      }
      assert Generated(b(Background)) && !write(FileName(modeId, Background)) ==> r == Unset by {
        if Generated(b(Background)) && !write(FileName(modeId, Background)) {
          SaveAllAbandons(modeId, b, write);
        }
      }
      r
  }
}
