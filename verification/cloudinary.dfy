/** The delivery URL of an image on the image host: the fixed host prefix,
    the configured cloud name, and a transformation segment built from the
    caller's options with defaults for the ones left undefined. */
module Cloudinary {
  import opened Common
  import Text

  const Host := "https://res.cloudinary.com/"

  /** The configured cloud name, with the placeholder used when the
      environment does not set one. */
  function CloudName(env: Option<string>): (name: string)
    ensures Truthy(env) ==> name == env.value
    ensures !Truthy(env) ==> name == "your_cloud_name"
  {
    if Truthy(env) then env.value else "your_cloud_name"
  }

  /** The transformation options; `None` is an option left undefined. A
      value the caller passes (even an empty one) is used as given. */
  datatype Options = Options(
    width: Option<string>, height: Option<string>, crop: Option<string>,
    quality: Option<string>, format: Option<string>)

  const NoOptions := Options(None, None, None, None, None)

  /** The options after the destructuring defaults. */
  datatype Resolved = Resolved(width: string, height: string, crop: string, quality: string, format: string)

  function Resolve(o: Options): (r: Resolved)
    ensures o.width.None? ==> r.width == "auto"
    ensures o.width.Some? ==> r.width == o.width.value
    ensures o.height.None? ==> r.height == "auto"
    ensures o.height.Some? ==> r.height == o.height.value
    ensures o.crop.None? ==> r.crop == "fill"
    ensures o.crop.Some? ==> r.crop == o.crop.value
    ensures o.quality.None? ==> r.quality == "auto"
    ensures o.quality.Some? ==> r.quality == o.quality.value
    ensures o.format.None? ==> r.format == "auto"
    ensures o.format.Some? ==> r.format == o.format.value
  {
    Resolved(o.width.GetOr("auto"), o.height.GetOr("auto"), o.crop.GetOr("fill"),
             o.quality.GetOr("auto"), o.format.GetOr("auto"))
  }

  /** The five `key_value` parts of the segment, in their fixed order. */
  function Parts(r: Resolved): seq<string> {
    ["w_" + r.width, "h_" + r.height, "c_" + r.crop, "q_" + r.quality, "f_" + r.format]
  }

  /** The comma-separated transformation segment. */
  function Segment(o: Options): string {
    Text.Join(Parts(Resolve(o)), ",")
  }

  /** getOptimizedImageUrl. */
  function OptimizedImageUrl(env: Option<string>, publicId: string, o: Options): string {
    Host + CloudName(env) + "/image/upload/" + Segment(o) + "/" + publicId
  }

  // ---- properties ----

  /** The cloud name is never empty, and feeding it back as the setting
      yields it again: the placeholder stands in only for a missing or
      empty setting. */
  lemma CloudNameNeverEmpty(env: Option<string>)
    ensures CloudName(env) != ""
    ensures CloudName(Some(CloudName(env))) == CloudName(env)
    ensures CloudName(env) == "your_cloud_name" <==> !Truthy(env) || env.value == "your_cloud_name"
  {
  }

  /** Options that spell out every value. */
  function Given(r: Resolved): Options {
    Options(Some(r.width), Some(r.height), Some(r.crop), Some(r.quality), Some(r.format))
  }

  /** Defaulting fills gaps and nothing more: spelled-out values come back
      unchanged, spelling out the resolved values resolves to the same
      thing, and an option set resolves like no options exactly when every
      value it gives is that option's default. */
  lemma ResolveLaws(o: Options, r: Resolved)
    ensures Resolve(Given(r)) == r
    ensures Resolve(Given(Resolve(o))) == Resolve(o)
    ensures Resolve(o) == Resolve(NoOptions) <==>
              && (o.width.None? || o.width.value == "auto")
              && (o.height.None? || o.height.value == "auto")
              && (o.crop.None? || o.crop.value == "fill")
              && (o.quality.None? || o.quality.value == "auto")
              && (o.format.None? || o.format.value == "auto")
  {
  }

  /** With no options the segment is the documented default. */
  lemma DefaultSegment()
    ensures Segment(NoOptions) == "w_auto,h_auto,c_fill,q_auto,f_auto"
  {
    var r := Resolve(NoOptions);
    assert r == Resolved("auto", "auto", "fill", "auto", "auto");
    var ps := Parts(r);
    assert ps[0] == "w_auto" && ps[1] == "h_auto" && ps[2] == "c_fill";
    assert ps[3] == "q_auto" && ps[4] == "f_auto";
    assert ps[..4][..3] == ps[..3] && ps[..3][..2] == ps[..2] && ps[..2][..1] == ps[..1];
    assert Text.Join(ps[..2], ",") == "w_auto,h_auto";
    assert Text.Join(ps[..3], ",") == "w_auto,h_auto,c_fill";
    assert Text.Join(ps[..4], ",") == "w_auto,h_auto,c_fill,q_auto";
  }

  /** The URL starts with the host and the cloud name and ends with a slash
      and exactly the public id. */
  lemma UrlShape(env: Option<string>, publicId: string, o: Options)
    ensures var u := OptimizedImageUrl(env, publicId, o);
            && Text.StartsWith(u, Host + CloudName(env) + "/image/upload/")
            && |u| > |publicId|
            && u[|u| - |publicId|..] == publicId
            && u[|u| - |publicId| - 1] == '/'
  {
    var u := OptimizedImageUrl(env, publicId, o);
    var prefix := Host + CloudName(env) + "/image/upload/";
    assert u == prefix + (Segment(o) + "/" + publicId);
    assert u[..|prefix|] == prefix;
  }

  /** When no option value holds a comma, splitting the segment at its
      commas gives back the five parts in the order width, height, crop,
      quality, format. */
  lemma SegmentSplitsIntoParts(o: Options)
    requires var r := Resolve(o);
             ',' !in r.width && ',' !in r.height && ',' !in r.crop && ',' !in r.quality
             && ',' !in r.format
    ensures Text.Split(Segment(o), ',') == Parts(Resolve(o))
    ensures |Text.Split(Segment(o), ',')| == 5
  {
    var r := Resolve(o);
    var ps := Parts(r);
    forall i | 0 <= i < |ps|
      ensures ',' !in ps[i]
    {
      assert ps[i][2..] in [r.width, r.height, r.crop, r.quality, r.format];
      assert ps[i] == ps[i][..2] + ps[i][2..];
    }
    Text.SplitJoin(ps, ',');
  }

  /** Two images in the same cloud with the same options get different
      URLs. */
  lemma DistinctIdsDistinctUrls(env: Option<string>, a: string, b: string, o: Options)
    requires a != b
    ensures OptimizedImageUrl(env, a, o) != OptimizedImageUrl(env, b, o)
  {
    var p := Host + CloudName(env) + "/image/upload/" + Segment(o) + "/";
    assert OptimizedImageUrl(env, a, o) == p + a;
    assert OptimizedImageUrl(env, b, o) == p + b;
    assert (p + a)[|p|..] == a && (p + b)[|p|..] == b;
  }
}
