/** The storage provider helpers: the configuration test over three
    credential environment variables, the requests the two upload helpers
    send, and how a provider reply becomes a result or an error. The
    provider call itself is foreign; its reply is an input here. */
module Cloudinary {
  import opened Wrappers
  import opened Text

  /** The placeholder value the provider SDK is configured with when a
      credential variable is unset or empty. */
  const Placeholder: string := "demo"

  /** The three credential environment variables, each possibly unset. */
  datatype Credentials = Credentials(
    cloudName: Option<string>,
    apiKey: Option<string>,
    apiSecret: Option<string>)

  /** JavaScript truthiness of an environment variable: set and non-empty. */
  predicate Truthy(v: Option<string>)
  {
    v.Some? && v.value != ""
  }

  /** Whether uploads go to the provider: every variable truthy and none
      equal to the placeholder, in the order the program tests them. Equivalently,
      each of the three variables is set to a value that is neither empty
      nor the placeholder. */
  function IsConfigured(c: Credentials): (b: bool)
    ensures b <==> forall v :: v in [c.cloudName, c.apiKey, c.apiSecret] ==>
                      v.Some? && v.value != "" && v.value != Placeholder
  {
    Truthy(c.cloudName) && c.cloudName != Some(Placeholder)
    && Truthy(c.apiKey) && c.apiKey != Some(Placeholder)
    && Truthy(c.apiSecret) && c.apiSecret != Some(Placeholder)
  }

  /** The value the SDK is configured with for one variable: the variable
      when truthy, else the placeholder. */
  function SdkValue(v: Option<string>): (r: string)
    ensures r == Placeholder <==> !Truthy(v) || v.value == Placeholder
    ensures Truthy(v) ==> r == v.value
  {
    if Truthy(v) then v.value else Placeholder
  }

  /** A single variable that is a usable credential. */
  predicate Usable(v: Option<string>)
  {
    v.Some? && v.value != "" && v.value != Placeholder
  }

  /** The configuration test holds exactly when each of the three variables
      is set, non-empty and not the placeholder; equivalently, exactly when
      the SDK was configured with no placeholder value. */
  lemma ConfiguredIff(c: Credentials)
    ensures IsConfigured(c) <==> Usable(c.cloudName) && Usable(c.apiKey) && Usable(c.apiSecret)
    ensures IsConfigured(c) <==>
      SdkValue(c.cloudName) != Placeholder && SdkValue(c.apiKey) != Placeholder
      && SdkValue(c.apiSecret) != Placeholder
  {
  }

  /** One placeholder or one empty/unset variable switches the provider off,
      whatever the other two are. */
  lemma OneBadCredentialDisables(c: Credentials)
    requires !Usable(c.cloudName) || !Usable(c.apiKey) || !Usable(c.apiSecret)
    ensures !IsConfigured(c)
  {
    ConfiguredIff(c);
  }

  /** The kind of asset the provider is asked to store. */
  datatype ResourceType = VideoResource | ImageResource

  /** The options of one provider upload call. */
  datatype UploadRequest = UploadRequest(
    filePath: string,
    resourceType: ResourceType,
    publicId: string,
    folder: string,
    overwrite: bool,
    quality: string,
    format: Option<string>)

  const VideoIdPrefix: string := "videos/"
  const ImageIdPrefix: string := "thumbnails/"
  const VideoFolder: string := "beatrepreneur/videos"
  const ImageFolder: string := "beatrepreneur/thumbnails"

  /** The request `uploadVideo(filePath, fileName)` sends. */
  function VideoUploadRequest(filePath: string, fileName: string): UploadRequest
  {
    UploadRequest(filePath, VideoResource, VideoIdPrefix + fileName, VideoFolder, true, "auto", None)
  }

  /** The request `uploadImage(filePath, fileName)` sends: images are
      normalised to WebP. */
  function ImageUploadRequest(filePath: string, fileName: string): UploadRequest
  {
    UploadRequest(filePath, ImageResource, ImageIdPrefix + fileName, ImageFolder, true, "auto", Some("webp"))
  }

  /** Reads a public id back into the kind and the local file name. */
  function ParsePublicId(publicId: string): Option<(ResourceType, string)>
  {
    if StartsWith(publicId, VideoIdPrefix) then Some((VideoResource, publicId[|VideoIdPrefix|..]))
    else if StartsWith(publicId, ImageIdPrefix) then Some((ImageResource, publicId[|ImageIdPrefix|..]))
    else None
  }

  /** The public id of each upload names its kind and its file, and both
      can be read back; the request carries the kind's folder and resource
      type. */
  lemma {:induction false} PublicIdRoundTrip(filePath: string, fileName: string)
    ensures var v := VideoUploadRequest(filePath, fileName);
      ParsePublicId(v.publicId) == Some((VideoResource, fileName))
      && v.resourceType == VideoResource && v.folder == VideoFolder && v.format == None
    ensures var i := ImageUploadRequest(filePath, fileName);
      ParsePublicId(i.publicId) == Some((ImageResource, fileName))
      && i.resourceType == ImageResource && i.folder == ImageFolder && i.format == Some("webp")
  {
    var v := VideoIdPrefix + fileName;
    assert StartsWith(v, VideoIdPrefix);
    assert v[|VideoIdPrefix|..] == fileName;
    var i := ImageIdPrefix + fileName;
    assert i[..|VideoIdPrefix|] != VideoIdPrefix by {
      assert i[0] == 't';
    }
    assert StartsWith(i, ImageIdPrefix);
    assert i[|ImageIdPrefix|..] == fileName;
  }

  /** Distinct files never share a public id, and a video never shares one
      with a thumbnail. */
  lemma PublicIdsDistinct(p1: string, f1: string, p2: string, f2: string)
    ensures VideoUploadRequest(p1, f1).publicId == VideoUploadRequest(p2, f2).publicId ==> f1 == f2
    ensures ImageUploadRequest(p1, f1).publicId == ImageUploadRequest(p2, f2).publicId ==> f1 == f2
    ensures VideoUploadRequest(p1, f1).publicId != ImageUploadRequest(p2, f2).publicId
  {
    PublicIdRoundTrip(p1, f1);
    PublicIdRoundTrip(p2, f2);
  }

  /** What the provider returns for a stored asset. */
  datatype UploadResult = UploadResult(
    publicId: string,
    secureUrl: string,
    resourceType: string,
    format: string,
    bytes: nat)

  /** The provider's answer to one call: stored, or an error whose text is
      the string form of what the SDK threw. */
  datatype ProviderReply = Stored(result: UploadResult) | ProviderError(reason: string)

  const VideoFailurePrefix: string := "Failed to upload video: "
  const ImageFailurePrefix: string := "Failed to upload image: "

  /** `uploadVideo`: passes the provider's result through, or rethrows its
      error with the video prefix. */
  function UploadVideo(reply: ProviderReply): (r: Result<UploadResult, string>)
    ensures r.Ok? <==> reply.Stored?
    ensures r.Ok? ==> r.value == reply.result
    ensures r.Err? ==>
              StartsWith(r.error, VideoFailurePrefix) && r.error[|VideoFailurePrefix|..] == reply.reason
  {
    match reply
    case Stored(result) => Ok(result)
    case ProviderError(reason) => Err(VideoFailurePrefix + reason)
  }

  /** `uploadImage`: as `uploadVideo`, with the image prefix. */
  function UploadImage(reply: ProviderReply): (r: Result<UploadResult, string>)
    ensures r.Ok? <==> reply.Stored?
    ensures r.Ok? ==> r.value == reply.result
    ensures r.Err? ==>
              StartsWith(r.error, ImageFailurePrefix) && r.error[|ImageFailurePrefix|..] == reply.reason
  {
    match reply
    case Stored(result) => Ok(result)
    case ProviderError(reason) => Err(ImageFailurePrefix + reason)
  }
}
