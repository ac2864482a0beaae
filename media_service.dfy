/** The upload-presign issuer `MediaService`: configuration read once at
    construction, and `createPresignedUpload`, which sanitises the filename,
    builds the storage key, asks the S3 presigner for a PUT URL and predicts the
    public URL. The random identifier and the presigner are parameters. */
module Media {
  import opened JsStrings
  import opened FileNames
  import opened ObjectKeys

  /** The configuration service's view of the environment: a name without an
      entry reads as `undefined`. */
  type Config = map<string, JsString>

  /** `config.get<string>(name)`; the `!` after it in the source is a type
      assertion only, so a missing value stays `undefined`. */
  function Get(config: Config, name: string): (v: Option<JsString>)
  {
    if name in config then Some(config[name]) else None
  }

  datatype Credentials = Credentials(accessKeyId: Option<JsString>, secretAccessKey: Option<JsString>)

  /** The options the `S3Client` is constructed with. */
  datatype S3ClientConfig = S3ClientConfig(
    region: Option<JsString>,
    endpoint: Option<JsString>,
    credentials: Credentials,
    forcePathStyle: bool)

  /** The canned ACLs an S3 `PutObjectCommand` accepts; the core only ever
      asks for `'private'`. */
  datatype CannedAcl =
    | Private | PublicRead | PublicReadWrite | AuthenticatedRead
    | AwsExecRead | BucketOwnerRead | BucketOwnerFullControl

  /** The input of `new PutObjectCommand({ Bucket, Key, ContentType, ACL })`. */
  datatype PutObjectCommand = PutObjectCommand(
    bucket: Option<JsString>,
    key: JsString,
    contentType: JsString,
    acl: CannedAcl)

  /** The reason a presigning call rejected with. */
  datatype SignFailure = SignFailure(message: JsString)

  /** `getSignedUrl(client, command, { expiresIn })`: the signed URL, or the
      failure its promise rejects with. */
  type Signer = (S3ClientConfig, PutObjectCommand, nat) -> Result<JsString, SignFailure>

  /** Validity window, in seconds, of every upload URL. */
  const UPLOAD_URL_EXPIRY: nat := 60

  /** The request body fields plus the caller's user id. */
  datatype UploadInput = UploadInput(userId: JsString, filename: JsString, contentType: JsString)

  /** What `createPresignedUpload` resolves to. */
  datatype PresignedUpload = PresignedUpload(
    key: JsString,
    uploadUrl: JsString,
    publicUrl: JsString,
    expiresIn: nat)

  /** The client options built from the configuration. */
  function ClientConfig(config: Config): (c: S3ClientConfig)
  {
    S3ClientConfig(
      Get(config, "S3_REGION"),
      Get(config, "S3_ENDPOINT"),
      Credentials(Get(config, "S3_ACCESS_KEY"), Get(config, "S3_SECRET_KEY")),
      false)
  }

  /** `config.get('S3_PUBLIC_BASE') || endpoint`: the public base is
      `S3_PUBLIC_BASE` when that is set to a non-empty string; unset or empty,
      it falls back to `S3_ENDPOINT` (which may itself be unset). */
  function PublicBaseOf(config: Config): (base: Option<JsString>)
    ensures "S3_PUBLIC_BASE" in config && config["S3_PUBLIC_BASE"] != [] ==>
      base == Some(config["S3_PUBLIC_BASE"])
    ensures "S3_PUBLIC_BASE" !in config ==> base == Get(config, "S3_ENDPOINT")
    ensures "S3_PUBLIC_BASE" in config && config["S3_PUBLIC_BASE"] == [] ==>
      base == Get(config, "S3_ENDPOINT")
    ensures base == None <==>
      !Truthy(Get(config, "S3_PUBLIC_BASE")) && "S3_ENDPOINT" !in config
  {
    JsOr(Get(config, "S3_PUBLIC_BASE"), Get(config, "S3_ENDPOINT"))
  }

  /** Without a usable `S3_PUBLIC_BASE`, public URLs point at the very endpoint
      the client presigns against; with one, they may point elsewhere while the
      client still signs against `S3_ENDPOINT`. */
  lemma PublicBaseIsClientEndpoint(config: Config)
    ensures !Truthy(Get(config, "S3_PUBLIC_BASE")) ==>
      PublicBaseOf(config) == ClientConfig(config).endpoint
    ensures Truthy(Get(config, "S3_PUBLIC_BASE")) ==>
      PublicBaseOf(config) == Get(config, "S3_PUBLIC_BASE")
      && ClientConfig(config).endpoint == Get(config, "S3_ENDPOINT")
  {
  }

  /** The public URL template `${publicBase}/${key}`. */
  function PublicUrl(publicBase: Option<JsString>, key: JsString): (url: JsString)
    ensures publicBase.Some? ==> url == publicBase.value + [SLASH] + key
    ensures publicBase.None? ==> url == Units("undefined/") + key
  {
    TemplateText(publicBase) + [SLASH] + key
  }

  class MediaService {
    const config: Config
    const s3: S3ClientConfig
    const bucket: Option<JsString>
    const publicBase: Option<JsString>

    /** Reads the configuration once; nothing is validated. */
    constructor (config: Config)
      ensures this.config == config
      ensures s3 == ClientConfig(config)
      ensures bucket == Get(config, "S3_BUCKET")
      ensures publicBase == PublicBaseOf(config)
    {
      this.config := config;
      bucket := Get(config, "S3_BUCKET");
      publicBase := PublicBaseOf(config);
      s3 := ClientConfig(config);
    }

    /** `createPresignedUpload(input)` with `id` the value `crypto.randomUUID()`
        returned and `signer` standing for `getSignedUrl`. The URL returned, or the
        rejection passed on, is the presigner's answer to a private PUT of
        exactly the returned key with the caller's content type and the
        60-second window that is also returned. */
    method CreatePresignedUpload(input: UploadInput, id: JsString, signer: Signer)
      returns (r: Result<PresignedUpload, SignFailure>)
      requires IsUuidV4(id)
      ensures var key := StorageKey(input.userId, id, CleanName(input.filename));
        var signed := signer(s3, PutObjectCommand(bucket, key, input.contentType, Private), UPLOAD_URL_EXPIRY);
        && (signed.Err? ==> r == Err(signed.error))
        && (signed.Ok? ==> r.Ok? && r.value.uploadUrl == signed.value)
      ensures r.Ok? ==>
        && r.value.key == UPLOADS_PREFIX + input.userId + [SLASH] + id + [DASH] + CleanName(input.filename)
        && Count(r.value.key, SLASH) == Count(input.userId, SLASH) + 2
        && LastSegment(r.value.key) == id + [DASH] + CleanName(input.filename)
        && signer(s3, PutObjectCommand(bucket, r.value.key, input.contentType, Private), r.value.expiresIn)
           == Ok(r.value.uploadUrl)
        && r.value.publicUrl == PublicUrl(publicBase, r.value.key)
        && r.value.expiresIn == 60
    {
      var cleanName := CleanName(input.filename);
      var key := StorageKey(input.userId, id, cleanName);
      StorageKeySlashCount(input.userId, id, input.filename);
      StorageKeyLastSegment(input.userId, id, input.filename);

      var command := PutObjectCommand(bucket, key, input.contentType, Private);
      var signed := signer(s3, command, UPLOAD_URL_EXPIRY);
      if signed.Err? {
        return Err(signed.error);
      }
      var uploadUrl := signed.value;
      var publicUrl := PublicUrl(publicBase, key);
      r := Ok(PresignedUpload(key, uploadUrl, publicUrl, UPLOAD_URL_EXPIRY));
    }
  }

  /** The user id the controller passes for every request. */
  const DEMO_USER: JsString := Units("demo-user")

  lemma DemoUserHasNoSlash()
    ensures SLASH !in DEMO_USER && Count(DEMO_USER, SLASH) == 0
  {
    assert forall i :: 0 <= i < |DEMO_USER| ==> DEMO_USER[i] != SLASH;
    CountAbsent(DEMO_USER, SLASH);
  }

  lemma DemoKeyLiterals()
    ensures UPLOADS_PREFIX + DEMO_USER + [SLASH] == Units("uploads/demo-user/")
    ensures [DASH] + Units("my_photo_.png") == Units("-my_photo_.png")
  {
  }

  /** The controller's caller uploading `my photo!.png`: the key is
      `uploads/demo-user/{id}-my_photo_.png`. */
  lemma DemoUserKey(id: JsString)
    requires IsUuidV4(id)
    ensures StorageKey(DEMO_USER, id, CleanName(Units("my photo!.png")))
      == Units("uploads/demo-user/") + id + Units("-my_photo_.png")
  {
    CleanNameExamplePhoto();
    DemoKeyLiterals();
    var head := UPLOADS_PREFIX + DEMO_USER + [SLASH];
    var tail := [DASH] + Units("my_photo_.png");
    assert StorageKey(DEMO_USER, id, CleanName(Units("my photo!.png"))) == head + id + tail;
  }

  /** That key has two `/`, the ones the template itself writes. */
  lemma DemoUserKeySlashes(id: JsString)
    requires IsUuidV4(id)
    ensures Count(StorageKey(DEMO_USER, id, CleanName(Units("my photo!.png"))), SLASH) == 2
  {
    DemoUserHasNoSlash();
    StorageKeySlashCount(DEMO_USER, id, Units("my photo!.png"));
  }

  /** Its last segment is `{id}-my_photo_.png`. */
  lemma DemoUserKeyLastSegment(id: JsString)
    requires IsUuidV4(id)
    ensures LastSegment(StorageKey(DEMO_USER, id, CleanName(Units("my photo!.png"))))
      == id + [DASH] + Units("my_photo_.png")
  {
    CleanNameExamplePhoto();
    StorageKeyLastSegment(DEMO_USER, id, Units("my photo!.png"));
  }
}
