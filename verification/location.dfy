/** Where the objects of an object storage contract are, as one string, and
    when the string tells two places apart. */
module Location {
  import opened Api

  datatype StorageType = S3 | GCS | AzureBlob | Unsupported(name: string)

  datatype S3Storage = S3Storage(bucketName: string, basePath: string, region: string, endpoint: string)

  datatype GCSStorage = GCSStorage(bucketName: string, basePath: string)

  datatype AzureBlobStorage =
    AzureBlobStorage(accountName: string, container: string, basePath: string, endpoint: string)

  datatype Contract = Contract(
    storage: StorageType, s3: Option<S3Storage>, gcs: Option<GCSStorage>, azureBlob: Option<AzureBlobStorage>)

  // strings.Trim and strings.TrimRight for a slash.

  function TrimLeft(s: string): (t: string)
    ensures |t| <= |s|
    ensures t != "" ==> t[0] != '/' && t[|t| - 1] == s[|s| - 1]
  {
    if s != "" && s[0] == '/' then TrimLeft(s[1..]) else s
  }

  function TrimRight(s: string): (t: string)
    ensures |t| <= |s|
    ensures t != "" ==> t[0] == s[0] && t[|t| - 1] != '/'
  {
    if s != "" && s[|s| - 1] == '/' then TrimRight(s[..|s| - 1]) else s
  }

  predicate Trimmed(s: string) {
    s != "" ==> s[0] != '/' && s[|s| - 1] != '/'
  }

  function Trim(s: string): (t: string)
    ensures Trimmed(t)
    ensures Trimmed(s) ==> t == s
  {
    var left := TrimLeft(s);
    TrimRight(left)
  }

  predicate IsEndpoint(url: string) {
    url != "" && url[|url| - 1] != '/'
  }

  function PublicEndpoint(accountName: string): (endpoint: string)
    ensures IsEndpoint(endpoint)
  {
    ("https://" + accountName) + ".blob.core.windows.net"
  }

  function ServiceEndpoint(block: AzureBlobStorage): (endpoint: string)
    ensures IsEndpoint(endpoint)
  {
    var endpoint := TrimRight(block.endpoint);
    if endpoint != "" then endpoint else PublicEndpoint(block.accountName)
  }

  function Slashes(n: nat): string {
    if n == 0 then "" else Slashes(n - 1) + "/"
  }

  lemma {:induction false} OneSlashBefore(n: nat)
    requires n > 0
    ensures Slashes(n) == "/" + Slashes(n - 1)
  {
    if n > 1 {
      OneSlashBefore(n - 1);
    }
  }

  lemma Regroup(a: string, b: string, c: string)
    ensures (a + b) + c == a + (b + c)
  {}

  lemma OneLessLeft(s: string)
    ensures TrimLeft("/" + s) == TrimLeft(s)
  {
    assert ("/" + s)[1..] == s;
  }

  lemma OneLessRight(s: string)
    ensures TrimRight(s + "/") == TrimRight(s)
  {
    assert (s + "/")[..|s|] == s;
  }

  lemma {:induction false} TrimLeftDrops(n: nat, t: string)
    ensures TrimLeft(Slashes(n) + t) == TrimLeft(t)
  {
    if n == 0 {
      assert "" + t == t;
    } else {
      OneSlashBefore(n);
      Regroup("/", Slashes(n - 1), t);
      OneLessLeft(Slashes(n - 1) + t);
      TrimLeftDrops(n - 1, t);
    }
  }

  lemma {:induction false} TrimRightDrops(t: string, n: nat)
    ensures TrimRight(t + Slashes(n)) == TrimRight(t)
  {
    if n == 0 {
      assert t + "" == t;
    } else {
      Regroup(t, Slashes(n - 1), "/");
      OneLessRight(t + Slashes(n - 1));
      TrimRightDrops(t, n - 1);
    }
  }

  lemma {:induction false} OnlySlashes(n: nat)
    ensures TrimLeft(Slashes(n)) == ""
  {
    TrimLeftDrops(n, "");
    assert Slashes(n) + "" == Slashes(n);
  }

  lemma StartStays(t: string, tail: string)
    requires t != "" && t[0] != '/'
    ensures TrimLeft(t + tail) == t + tail
  {
    assert (t + tail)[0] == t[0];
  }

  /** Trim takes the slashes at both ends, and nothing else. */
  lemma TrimDropsSlashes(m: nat, t: string, n: nat)
    requires Trimmed(t)
    ensures Trim(Slashes(m) + (t + Slashes(n))) == t
  {
    TrimLeftDrops(m, t + Slashes(n));
    if t == "" {
      assert "" + Slashes(n) == Slashes(n);
      OnlySlashes(n);
    } else {
      StartStays(t, Slashes(n));
      TrimRightDrops(t, n);
    }
  }

  /** An endpoint is the same with slashes behind it. Only without one does S3
      take the region, and Azure the public endpoint of the account. */
  lemma SlashesDoNotCount(s3: S3Storage, azure: AzureBlobStorage, url: string, n: nat)
    requires url != "" ==> IsEndpoint(url)
    requires s3.endpoint == url + Slashes(n) && azure.endpoint == url + Slashes(n)
    ensures S3Service(s3) == if url == "" then Region(s3.region) else Endpoint(url)
    ensures ServiceEndpoint(azure) == if url == "" then PublicEndpoint(azure.accountName) else url
  {
    TrimRightDrops(url, n);
  }

  /** The base path of the active block, or None when the block is not set. */
  function Active(c: Contract): Option<string> {
    match c.storage
    case S3 => if c.s3.Some? then Some(c.s3.value.basePath) else None
    case GCS => if c.gcs.Some? then Some(c.gcs.value.basePath) else None
    case AzureBlob => if c.azureBlob.Some? then Some(c.azureBlob.value.basePath) else None
    case Unsupported(_) => None
  }

  function BasePath(c: Contract): (base: string)
    ensures Trimmed(base)
  {
    if Active(c).Some? then Trim(Active(c).value) else ""
  }

  /** The base path of the objects under path. */
  function BaseOf(c: Contract, path: string): (base: string)
    ensures Trimmed(base)
  {
    Trim(BasePath(c) + ("/" + Trim(path)))
  }

  /** What selects the service of a block: GCS has only one. */
  datatype Service = OnlyService | Region(name: string) | Endpoint(url: string)

  /** The storage type and the bucket, or the account and the container. */
  datatype Root = S3Root(bucket: string) | GCSRoot(bucket: string) | AzureRoot(account: string, container: string)

  /** A service that a block of this kind can have. */
  predicate Fits(root: Root, service: Service) {
    match service
    case OnlyService => root.GCSRoot?
    case Region(_) => root.S3Root?
    case Endpoint(url) => !root.GCSRoot? && IsEndpoint(url)
  }

  const REGION := "region "
  const ENDPOINT := "endpoint "
  const PAREN := " ("

  function ServiceText(service: Service): string {
    match service
    case OnlyService => ""
    case Region(name) => REGION + name
    case Endpoint(url) => ENDPOINT + url
  }

  function S3Service(block: S3Storage): (service: Service)
    ensures Fits(S3Root(block.bucketName), service)
  {
    var endpoint := TrimRight(block.endpoint);
    if endpoint != "" then Endpoint(endpoint) else Region(block.region)
  }

  function WithService(base: string, service: string): string {
    base + (PAREN + (service + ")"))
  }

  function S3Location(block: S3Storage, base: string): string {
    "s3://" + (block.bucketName + ("/" + WithService(base, ServiceText(S3Service(block)))))
  }

  function AzureLocation(block: AzureBlobStorage, base: string): string {
    var tail := WithService(base, ENDPOINT + ServiceEndpoint(block));
    "azblob://" + (block.accountName + ("/" + (block.container + ("/" + tail))))
  }

  function GCSLocation(block: GCSStorage, base: string): string {
    "gs://" + (block.bucketName + ("/" + base))
  }

  /** The location of the objects under base. */
  function LocationAt(c: Contract, base: string): string {
    match c.storage
    case S3 => if c.s3.None? then "" else S3Location(c.s3.value, base)
    case GCS => if c.gcs.None? then "" else GCSLocation(c.gcs.value, base)
    case AzureBlob => if c.azureBlob.None? then "" else AzureLocation(c.azureBlob.value, base)
    case Unsupported(_) => ""
  }

  function LocationOf(c: Contract, path: string): string {
    LocationAt(c, BaseOf(c, path))
  }

  function Location(c: Contract): string {
    LocationOf(c, "")
  }

  /** The text of each location and of each service. */
  lemma LocationTexts(s3: S3Storage, gcs: GCSStorage, azure: AzureBlobStorage, base: string, text: string)
    ensures
      S3Location(s3, base) ==
      "s3://" + (s3.bucketName + ("/" + (base + (" (" + (ServiceText(S3Service(s3)) + ")")))))
    ensures GCSLocation(gcs, base) == "gs://" + (gcs.bucketName + ("/" + base))
    ensures
      var tail := base + (" (" + (("endpoint " + ServiceEndpoint(azure)) + ")"));
      AzureLocation(azure, base) == "azblob://" + (azure.accountName + ("/" + (azure.container + ("/" + tail))))
    ensures ServiceText(Region(text)) == "region " + text && ServiceText(Endpoint(text)) == "endpoint " + text
    ensures PublicEndpoint(text) == ("https://" + text) + ".blob.core.windows.net"
  {}

  // The place that a location stands for.

  datatype Place = Nowhere | Place(root: Root, base: string, service: Service)

  /** A place that a contract can have. */
  predicate Possible(p: Place) {
    p.Place? ==> Trimmed(p.base) && Fits(p.root, p.service)
  }

  function RootOf(c: Contract): Root
    requires Active(c).Some?
  {
    match c.storage
    case S3 => S3Root(c.s3.value.bucketName)
    case GCS => GCSRoot(c.gcs.value.bucketName)
    case AzureBlob => AzureRoot(c.azureBlob.value.accountName, c.azureBlob.value.container)
  }

  function ServiceOf(c: Contract): (service: Service)
    requires Active(c).Some?
    ensures Fits(RootOf(c), service)
  {
    match c.storage
    case S3 => S3Service(c.s3.value)
    case GCS => OnlyService
    case AzureBlob => Endpoint(ServiceEndpoint(c.azureBlob.value))
  }

  function PlaceAt(c: Contract, base: string): Place {
    if Active(c).None? then Nowhere else Place(RootOf(c), base, ServiceOf(c))
  }

  function PlaceOf(c: Contract, path: string): (p: Place)
    ensures Possible(p)
  {
    PlaceAt(c, BaseOf(c, path))
  }

  function RootText(root: Root, tail: string): string {
    match root
    case S3Root(bucket) => "s3://" + (bucket + ("/" + tail))
    case GCSRoot(bucket) => "gs://" + (bucket + ("/" + tail))
    case AzureRoot(account, container) => "azblob://" + (account + ("/" + (container + ("/" + tail))))
  }

  function Tail(base: string, service: Service): string {
    if service.OnlyService? then base else WithService(base, ServiceText(service))
  }

  function Spelled(p: Place): string {
    if p.Nowhere? then "" else RootText(p.root, Tail(p.base, p.service))
  }

  lemma S3IsSpelled(block: S3Storage, base: string)
    ensures S3Location(block, base) == Spelled(Place(S3Root(block.bucketName), base, S3Service(block)))
  {}

  lemma AzureIsSpelled(block: AzureBlobStorage, base: string)
    ensures
      var root := AzureRoot(block.accountName, block.container);
      AzureLocation(block, base) == Spelled(Place(root, base, Endpoint(ServiceEndpoint(block))))
  {}

  lemma GCSIsSpelled(block: GCSStorage, base: string)
    ensures GCSLocation(block, base) == Spelled(Place(GCSRoot(block.bucketName), base, OnlyService))
  {}

  lemma BaseIsSpelled(c: Contract, base: string)
    ensures LocationAt(c, base) == Spelled(PlaceAt(c, base))
  {
    if Active(c).Some? {
      match c.storage
      case S3 => S3IsSpelled(c.s3.value, base);
      case GCS => GCSIsSpelled(c.gcs.value, base);
      case AzureBlob => AzureIsSpelled(c.azureBlob.value, base);
    }
  }

  lemma LocationIsSpelled(c: Contract, path: string)
    ensures LocationOf(c, path) == Spelled(PlaceOf(c, path))
  {
    BaseIsSpelled(c, BaseOf(c, path));
  }

  /** The names of buckets, accounts and containers hold no slash. */
  predicate Named(root: Root) {
    match root
    case S3Root(bucket) => '/' !in bucket
    case GCSRoot(bucket) => '/' !in bucket
    case AzureRoot(account, container) => '/' !in account && '/' !in container
  }

  predicate WellNamed(c: Contract) {
    Active(c).Some? ==> Named(RootOf(c))
  }

  // How the parts of a location are told apart.

  predicate FirstSlashAt(s: string, n: nat) {
    n < |s| && s[n] == '/' && forall i :: 0 <= i < n ==> s[i] != '/'
  }

  lemma SlashFollows(a: string, x: string)
    requires '/' !in a
    ensures
      var s := a + ("/" + x);
      FirstSlashAt(s, |a|) && s[..|a|] == a && s[|a| + 1..] == x
  {
    var s := a + ("/" + x);
    assert s[..|a|] == a;
    assert forall i :: 0 <= i < |a| ==> s[i] == a[i] != '/';
  }

  lemma SlashSplits(a: string, x: string, b: string, y: string)
    requires '/' !in a && '/' !in b && a + ("/" + x) == b + ("/" + y)
    ensures a == b && x == y
  {
    SlashFollows(a, x);
    SlashFollows(b, y);
  }

  /** The tail of a is read with the shorter base of b: the service of b starts
      inside the base of a. */
  predicate Overlaps(base: string, service: string, shorter: string, longer: string) {
    && |shorter| + |PAREN| <= |base|
    && shorter + PAREN <= base
    && longer == base[|shorter| + |PAREN|..] + (PAREN + service)
  }

  lemma OverlapIsSame(base: string, service: string, shorter: string, longer: string)
    requires Overlaps(base, service, shorter, longer)
    ensures WithService(base, service) == WithService(shorter, longer)
  {
    var h := base[|shorter| + |PAREN|..];
    assert base == shorter + (PAREN + h);
  }

  lemma SameTail(base: string, service: string, shorter: string, longer: string)
    requires WithService(base, service) == WithService(shorter, longer) && |shorter| < |base|
    ensures Overlaps(base, service, shorter, longer)
  {
    var s, t := WithService(base, service), WithService(shorter, longer);
    var n, k := |base|, |shorter|;
    assert s[n] == ' ' && s[n + 1] == '(' && t[k] == ' ' && t[k + 1] == '(';
    assert k + 2 <= n;
    assert base == s[..n] && shorter == t[..k];
    assert base[k] == ' ' && base[k + 1] == '(';
    assert shorter + PAREN == base[..k + 2];
    TailOfLonger(base, service, shorter, longer);
  }

  lemma TailOfLonger(base: string, service: string, shorter: string, longer: string)
    requires WithService(base, service) == WithService(shorter, longer) && |shorter| + 2 <= |base|
    ensures longer == base[|shorter| + 2..] + (PAREN + service)
  {
    var s, t := WithService(base, service), WithService(shorter, longer);
    var h := base[|shorter| + 2..];
    assert t[|shorter| + 2..] == longer + ")";
    assert s[|shorter| + 2..] == (h + (PAREN + service)) + ")";
    assert (longer + ")")[..|longer|] == longer;
  }

  lemma SameTailOrOverlap(base: string, service: string, base': string, service': string)
    ensures
      WithService(base, service) == WithService(base', service') <==>
      || (base == base' && service == service')
      || Overlaps(base, service, base', service')
      || Overlaps(base', service', base, service)
  {
    if WithService(base, service) == WithService(base', service') {
      if |base'| < |base| {
        SameTail(base, service, base', service');
      } else if |base| < |base'| {
        SameTail(base', service', base, service);
      } else {
        var s, t := WithService(base, service), WithService(base', service');
        assert base == s[..|base|] && base' == t[..|base'|];
        assert service == s[|base| + 2..|s| - 1] && service' == t[|base'| + 2..|t| - 1];
      }
    }
    if Overlaps(base, service, base', service') {
      OverlapIsSame(base, service, base', service');
    }
    if Overlaps(base', service', base, service) {
      OverlapIsSame(base', service', base, service);
    }
  }

  lemma ServiceTextTells(a: Service, b: Service)
    ensures ServiceText(a) == ServiceText(b) <==> a == b
  {
    var s, t := ServiceText(a), ServiceText(b);
    assert a.Region? ==> s[0] == 'r' && s[|REGION|..] == a.name;
    assert a.Endpoint? ==> s[0] == 'e' && s[|ENDPOINT|..] == a.url;
    assert b.Region? ==> t[0] == 'r' && t[|REGION|..] == b.name;
    assert b.Endpoint? ==> t[0] == 'e' && t[|ENDPOINT|..] == b.url;
  }

  lemma DropPrefix(prefix: string, x: string, y: string)
    ensures prefix + x == prefix + y <==> x == y
  {
    assert (prefix + x)[|prefix|..] == x && (prefix + y)[|prefix|..] == y;
  }

  lemma RootIsFirst(a: Root, x: string)
    ensures RootText(a, x) != "" && RootText(a, x)[0] == if a.S3Root? then 's' else if a.GCSRoot? then 'g' else 'a'
  {}

  lemma SameBucket(prefix: string, a: string, x: string, b: string, y: string)
    requires '/' !in a && '/' !in b
    ensures prefix + (a + ("/" + x)) == prefix + (b + ("/" + y)) <==> a == b && x == y
  {
    DropPrefix(prefix, a + ("/" + x), b + ("/" + y));
    if a + ("/" + x) == b + ("/" + y) {
      SlashSplits(a, x, b, y);
    }
  }

  lemma SameRoot(a: Root, x: string, b: Root, y: string)
    requires Named(a) && Named(b)
    ensures RootText(a, x) == RootText(b, y) <==> a == b && x == y
  {
    RootIsFirst(a, x);
    RootIsFirst(b, y);
    if a.S3Root? && b.S3Root? {
      SameBucket("s3://", a.bucket, x, b.bucket, y);
    } else if a.GCSRoot? && b.GCSRoot? {
      SameBucket("gs://", a.bucket, x, b.bucket, y);
    } else if a.AzureRoot? && b.AzureRoot? {
      SameBucket("azblob://", a.account, a.container + ("/" + x), b.account, b.container + ("/" + y));
      SameBucket("", a.container, x, b.container, y);
      assert "" + (a.container + ("/" + x)) == a.container + ("/" + x);
      assert "" + (b.container + ("/" + y)) == b.container + ("/" + y);
    }
  }

  /** Two places of one bucket or container whose locations overlap. */
  predicate Blurred(a: Place, b: Place) {
    && a.Place? && b.Place? && a.root == b.root
    && !a.service.OnlyService? && !b.service.OnlyService?
    && Overlaps(a.base, ServiceText(a.service), b.base, ServiceText(b.service))
  }

  /** Two spellings are one exactly when the places are one, or one of them
      reads a part of the service of the other as base path. */
  lemma SameSpelling(a: Place, b: Place)
    requires Possible(a) && Possible(b)
    requires (a.Place? ==> Named(a.root)) && (b.Place? ==> Named(b.root))
    ensures Spelled(a) == Spelled(b) <==> a == b || Blurred(a, b) || Blurred(b, a)
  {
    if a.Place? && b.Place? {
      SameRoot(a.root, Tail(a.base, a.service), b.root, Tail(b.base, b.service));
      ServiceTextTells(a.service, b.service);
      SameTailOrOverlap(a.base, ServiceText(a.service), b.base, ServiceText(b.service));
    } else if a.Place? {
      RootIsFirst(a.root, Tail(a.base, a.service));
    } else if b.Place? {
      RootIsFirst(b.root, Tail(b.base, b.service));
    }
  }

  /** Two contracts have one location exactly when their objects are in one
      place, or the locations overlap. */
  lemma SameLocation(c: Contract, p: string, d: Contract, q: string)
    requires WellNamed(c) && WellNamed(d)
    ensures
      LocationOf(c, p) == LocationOf(d, q) <==>
      || PlaceOf(c, p) == PlaceOf(d, q)
      || Blurred(PlaceOf(c, p), PlaceOf(d, q))
      || Blurred(PlaceOf(d, q), PlaceOf(c, p))
  {
    LocationIsSpelled(c, p);
    LocationIsSpelled(d, q);
    SameSpelling(PlaceOf(c, p), PlaceOf(d, q));
  }

  // Services without " (".

  predicate HasParen(s: string) {
    exists i :: 0 <= i < |s| - 1 && s[i] == ' ' && s[i + 1] == '('
  }

  /** A name without " (" that does not start with "(" either. */
  predicate Plain(name: string) {
    !HasParen(name) && !("(" <= name)
  }

  /** Whether the region or the endpoint that selects the service is plain. */
  predicate PlainService(service: Service) {
    match service
    case OnlyService => true
    case Region(name) => Plain(name)
    case Endpoint(url) => Plain(url)
  }

  lemma NoParenAcross(word: string, name: string)
    requires Plain(name) && '(' !in word
    ensures !HasParen(word + name)
  {
    var text := word + name;
    forall i | 0 <= i < |text| - 1 ensures !(text[i] == ' ' && text[i + 1] == '(') {
      if i >= |word| {
        assert text[i] == name[i - |word|] && text[i + 1] == name[i - |word| + 1];
      } else if i == |word| - 1 {
        assert text[i + 1] == name[0];
      } else {
        assert text[i + 1] == word[i + 1];
      }
    }
  }

  lemma PlainServiceHasNoParen(service: Service)
    requires PlainService(service)
    ensures !HasParen(ServiceText(service))
  {
    match service
    case OnlyService =>
    case Region(name) => NoParenAcross(REGION, name);
    case Endpoint(url) => NoParenAcross(ENDPOINT, url);
  }

  lemma BlurredHasParen(a: Place, b: Place)
    requires Blurred(a, b)
    ensures HasParen(ServiceText(b.service))
  {
    var k := |a.base| - |b.base| - 2;
    var text := ServiceText(b.service);
    assert text[k] == ' ' && text[k + 1] == '(';
  }

  /** With plain services the location changes exactly when the place does. */
  lemma PlainLocations(c: Contract, p: string, d: Contract, q: string)
    requires WellNamed(c) && WellNamed(d)
    requires Active(c).Some? ==> PlainService(ServiceOf(c))
    requires Active(d).Some? ==> PlainService(ServiceOf(d))
    ensures LocationOf(c, p) == LocationOf(d, q) <==> PlaceOf(c, p) == PlaceOf(d, q)
  {
    var a, b := PlaceOf(c, p), PlaceOf(d, q);
    SameLocation(c, p, d, q);
    if Blurred(a, b) {
      BlurredHasParen(a, b);
      PlainServiceHasNoParen(b.service);
    }
    if Blurred(b, a) {
      BlurredHasParen(b, a);
      PlainServiceHasNoParen(a.service);
    }
  }

  // The exact condition on one contract.

  /** A text that some block of this kind has as its service. */
  predicate IsServiceText(root: Root, text: string) {
    || (root.S3Root? && REGION <= text)
    || (!root.GCSRoot? && ENDPOINT <= text && IsEndpoint(text[|ENDPOINT|..]))
  }

  function ServiceRead(text: string): Service {
    if REGION <= text then Region(text[|REGION|..])
    else if ENDPOINT <= text then Endpoint(text[|ENDPOINT|..])
    else OnlyService
  }

  lemma ReadIsService(root: Root, text: string)
    requires IsServiceText(root, text)
    ensures
      var service := ServiceRead(text);
      && ServiceText(service) == text && !service.OnlyService?
      && (service.Region? ==> root.S3Root?) && (service.Endpoint? ==> IsEndpoint(service.url))
  {
    if REGION <= text {
      assert text[0] == REGION[0] != ENDPOINT[0];
      assert text == REGION + text[|REGION|..];
    } else {
      assert text == ENDPOINT + text[|ENDPOINT|..];
    }
  }

  /** The base path holds a " (" that starts a service. */
  predicate CutsBase(p: Place, i: nat)
    requires p.Place?
  {
    && i + 2 <= |p.base| && p.base[i] == ' ' && p.base[i + 1] == '('
    && Trimmed(p.base[..i])
    && IsServiceText(p.root, p.base[i + 2..] + (PAREN + ServiceText(p.service)))
  }

  /** The service holds a " (" that starts another service. */
  predicate CutsService(p: Place, j: nat)
    requires p.Place?
  {
    var text := ServiceText(p.service);
    && j + 2 <= |text| && text[j] == ' ' && text[j + 1] == '('
    && Trimmed(p.base + (PAREN + text[..j]))
    && IsServiceText(p.root, text[j + 2..])
  }

  predicate Ambiguous(p: Place) {
    && p.Place?
    && ((exists i: nat :: i < |p.base| && CutsBase(p, i)) ||
        (exists j: nat :: j < |ServiceText(p.service)| && CutsService(p, j)))
  }

  /** A " (" at position i of a base path. */
  lemma ParenAt(base: string, i: nat, shorter: string)
    requires i + 2 <= |base| && |shorter| == i
    ensures shorter + PAREN <= base <==> base[..i] == shorter && base[i] == ' ' && base[i + 1] == '('
  {
    var s := shorter + PAREN;
    assert s[..i] == shorter && s[i] == ' ' && s[i + 1] == '(';
    assert base[..i + 2] == base[..i] + [base[i], base[i + 1]];
    assert s <= base <==> s == base[..i + 2];
    assert base[..i + 2][..i] == base[..i];
  }

  lemma CutBaseOverlaps(p: Place, i: nat)
    requires p.Place? && CutsBase(p, i)
    ensures
      var text := ServiceText(p.service);
      Overlaps(p.base, text, p.base[..i], p.base[i + 2..] + (PAREN + text))
  {
    ParenAt(p.base, i, p.base[..i]);
  }

  lemma CutServiceOverlaps(p: Place, j: nat)
    requires p.Place? && CutsService(p, j)
    ensures
      var text := ServiceText(p.service);
      Overlaps(p.base + (PAREN + text[..j]), text[j + 2..], p.base, text)
  {
    CutOverlaps(p.base, ServiceText(p.service), j);
  }

  /** A text with a cut at j, seen as the end of a longer base path. */
  lemma CutOverlaps(base: string, text: string, j: nat)
    requires j + 2 <= |text| && text[j..j + 2] == PAREN
    ensures Overlaps(base + (PAREN + text[..j]), text[j + 2..], base, text)
  {
    var longer := base + (PAREN + text[..j]);
    assert longer == (base + PAREN) + text[..j];
    assert longer[|base| + 2..] == text[..j];
    assert text == text[..j] + (text[j..j + 2] + text[j + 2..]);
  }

  lemma OverlapCutsBase(a: Place, b: Place)
    requires Blurred(a, b) && Possible(a) && Possible(b)
    ensures CutsBase(a, |b.base|)
  {
    ParenAt(a.base, |b.base|, b.base);
    PossibleServiceText(b);
  }

  lemma OverlapCutsService(a: Place, b: Place)
    requires Blurred(a, b) && Possible(a) && Possible(b)
    ensures CutsService(b, |a.base| - |b.base| - 2)
  {
    var text := ServiceText(b.service);
    var h := a.base[|b.base| + 2..];
    JoinsBase(a.base, b.base, h);
    CutsAt(text, h, ServiceText(a.service));
    PossibleServiceText(a);
  }

  lemma JoinsBase(base: string, shorter: string, h: string)
    requires |shorter| + 2 <= |base| && shorter + PAREN <= base && h == base[|shorter| + 2..]
    ensures base == shorter + (PAREN + h)
  {
    assert base == base[..|shorter| + 2] + h;
  }

  lemma CutsAt(text: string, h: string, rest: string)
    requires text == h + (PAREN + rest)
    ensures |h| + 2 <= |text| && text[|h|] == ' ' && text[|h| + 1] == '('
    ensures text[..|h|] == h && text[|h| + 2..] == rest
  {}

  lemma PossibleServiceText(p: Place)
    requires Possible(p) && p.Place? && !p.service.OnlyService?
    ensures IsServiceText(p.root, ServiceText(p.service))
  {
    if p.service.Endpoint? {
      assert ServiceText(p.service)[|ENDPOINT|..] == p.service.url;
    }
  }

  /** Another place with the location of p. */
  ghost predicate Twin(p: Place, q: Place) {
    q != p && p.Place? && q.Place? && q.root == p.root && Possible(q) && Spelled(q) == Spelled(p)
  }

  lemma OverlapIsTwin(p: Place, base: string, text: string)
    requires p.Place? && Trimmed(base) && IsServiceText(p.root, text) && base != p.base && !p.service.OnlyService?
    requires
      || Overlaps(p.base, ServiceText(p.service), base, text)
      || Overlaps(base, text, p.base, ServiceText(p.service))
    ensures Twin(p, Place(p.root, base, ServiceRead(text)))
  {
    ReadIsService(p.root, text);
    SameTailOrOverlap(p.base, ServiceText(p.service), base, text);
  }

  lemma AmbiguousHasTwin(p: Place) returns (q: Place)
    requires Possible(p) && Ambiguous(p)
    ensures Twin(p, q)
  {
    var text := ServiceText(p.service);
    if i: nat :| i < |p.base| && CutsBase(p, i) {
      CutBaseOverlaps(p, i);
      OverlapIsTwin(p, p.base[..i], p.base[i + 2..] + (PAREN + text));
      q := Place(p.root, p.base[..i], ServiceRead(p.base[i + 2..] + (PAREN + text)));
    } else {
      var j: nat :| j < |text| && CutsService(p, j);
      CutServiceOverlaps(p, j);
      OverlapIsTwin(p, p.base + (PAREN + text[..j]), text[j + 2..]);
      q := Place(p.root, p.base + (PAREN + text[..j]), ServiceRead(text[j + 2..]));
    }
  }

  // A contract for each possible place.

  function ContractAt(p: Place): Contract {
    if p.Nowhere? then Contract(S3, None, None, None)
    else
      var region := if p.service.Region? then p.service.name else "";
      var endpoint := if p.service.Endpoint? then p.service.url else "";
      match p.root
      case S3Root(bucket) => Contract(S3, Some(S3Storage(bucket, p.base, region, endpoint)), None, None)
      case GCSRoot(bucket) => Contract(GCS, None, Some(GCSStorage(bucket, p.base)), None)
      case AzureRoot(account, container) =>
        Contract(AzureBlob, None, None, Some(AzureBlobStorage(account, container, p.base, endpoint)))
  }

  lemma TrimAfter(base: string)
    requires Trimmed(base)
    ensures Trim(base + "/") == base
  {
    var s := base + "/";
    if base == "" {
      assert TrimLeft("/") == TrimLeft("/"[1..]) == "";
    } else {
      assert s[0] == base[0] && s[|s| - 1] == '/';
      assert s[..|s| - 1] == base;
      assert TrimRight(s) == TrimRight(base) == base;
    }
  }

  /** An empty path yields the base path itself. */
  lemma BaseAtRoot(c: Contract)
    ensures BaseOf(c, "") == BasePath(c)
  {
    TrimAfter(BasePath(c));
    assert "/" + "" == "/";
  }

  lemma EndpointIsTrimmed(url: string)
    requires url == "" || IsEndpoint(url)
    ensures TrimRight(url) == url
  {}

  lemma ContractAtIsActive(p: Place)
    requires Possible(p) && p.Place?
    ensures Active(ContractAt(p)) == Some(p.base) && RootOf(ContractAt(p)) == p.root
  {}

  lemma ContractAtService(p: Place)
    requires Possible(p) && p.Place?
    ensures Active(ContractAt(p)).Some? && ServiceOf(ContractAt(p)) == p.service
  {
    EndpointIsTrimmed(if p.service.Endpoint? then p.service.url else "");
  }

  lemma PossibleHasContract(p: Place)
    requires Possible(p)
    ensures PlaceOf(ContractAt(p), "") == p
  {
    BaseAtRoot(ContractAt(p));
    if p.Place? {
      ContractAtIsActive(p);
      ContractAtService(p);
    }
  }

  /** Whether the location of c tells its place from every other place of a
      contract. */
  ghost predicate Identifies(c: Contract, path: string) {
    forall d: Contract, q: string ::
      WellNamed(d) && LocationOf(d, q) == LocationOf(c, path) ==> PlaceOf(d, q) == PlaceOf(c, path)
  }

  lemma TwinIsMistaken(c: Contract, path: string, q: Place)
    requires WellNamed(c) && Twin(PlaceOf(c, path), q) && Active(c).Some?
    ensures !Identifies(c, path)
  {
    var d := ContractAt(q);
    PossibleHasContract(q);
    LocationIsSpelled(d, "");
    LocationIsSpelled(c, path);
    assert WellNamed(d) && LocationOf(d, "") == LocationOf(c, path) && PlaceOf(d, "") != PlaceOf(c, path);
  }

  lemma ClearIsNotMistaken(c: Contract, path: string, d: Contract, q: string)
    requires WellNamed(c) && WellNamed(d) && !Ambiguous(PlaceOf(c, path))
    requires LocationOf(d, q) == LocationOf(c, path)
    ensures PlaceOf(d, q) == PlaceOf(c, path)
  {
    var a, b := PlaceOf(c, path), PlaceOf(d, q);
    SameLocation(c, path, d, q);
    if Blurred(a, b) {
      OverlapCutsBase(a, b);
    }
    if Blurred(b, a) {
      OverlapCutsService(b, a);
    }
  }

  /** The location tells the place exactly when neither the base path nor the
      service holds a " (" that starts a service. */
  lemma IdentifiesIff(c: Contract, path: string)
    requires WellNamed(c)
    ensures Identifies(c, path) <==> !Ambiguous(PlaceOf(c, path))
  {
    if Ambiguous(PlaceOf(c, path)) {
      var q := AmbiguousHasTwin(PlaceOf(c, path));
      TwinIsMistaken(c, path, q);
    } else {
      forall d: Contract, q: string | WellNamed(d) && LocationOf(d, q) == LocationOf(c, path)
        ensures PlaceOf(d, q) == PlaceOf(c, path)
      {
        ClearIsNotMistaken(c, path, d, q);
      }
    }
  }

  /** A region that holds no " (" collides all the same when it starts with
      "(": for every bucket, base path and endpoint. */
  lemma RegionCollides(bucket: string, base: string, url: string)
    requires '/' !in bucket && Trimmed(base) && IsEndpoint(url) && Plain(url)
    ensures
      var a := Place(S3Root(bucket), base, Region("(" + (ENDPOINT + url)));
      var b := Place(S3Root(bucket), base + " (region", Endpoint(url));
      && !HasParen(a.service.name) && !HasParen(b.service.url)
      && PlaceOf(ContractAt(a), "") == a && PlaceOf(ContractAt(b), "") == b
      && Location(ContractAt(a)) == Location(ContractAt(b))
  {
    NoParenAcross(ENDPOINT, url);
    NoParenBefore(ENDPOINT + url);
    TailsCollide(base, url);
    TrimmedMore(base, " (region");
    SameSpelledSameLocation(
      Place(S3Root(bucket), base, Region("(" + (ENDPOINT + url))),
      Place(S3Root(bucket), base + " (region", Endpoint(url)));
  }

  /** A bucket name with a slash, which the API admits, collides: the bucket "x/y"
      with base "z" and the bucket "x" with base "y/z", for each service. */
  lemma SlashCollides(x: string, y: string, z: string, service: Service)
    requires y != "" && z != "" && Trimmed(y) && Trimmed(z)
    requires service.OnlyService? || Fits(S3Root(x), service)
    ensures
      var outer, inner := RootWith(service, x + ("/" + y)), RootWith(service, x);
      var a, b := Place(outer, z, service), Place(inner, y + ("/" + z), service);
      && a != b
      && PlaceOf(ContractAt(a), "") == a && PlaceOf(ContractAt(b), "") == b
      && Location(ContractAt(a)) == Location(ContractAt(b))
  {
    var outer, inner := RootWith(service, x + ("/" + y)), RootWith(service, x);
    TrimmedJoin(y, z);
    TailOfJoin(y, z, service);
    SlashesJoin(x, y, Tail(z, service));
    SameSpelledSameLocation(Place(outer, z, service), Place(inner, y + ("/" + z), service));
  }

  lemma TailOfJoin(y: string, z: string, service: Service)
    ensures Tail(y + ("/" + z), service) == y + ("/" + Tail(z, service))
  {
    var s := ServiceText(service);
    assert WithService(y + ("/" + z), s) == y + ("/" + WithService(z, s));
  }

  lemma SlashesJoin(x: string, y: string, t: string)
    ensures (x + ("/" + y)) + ("/" + t) == x + ("/" + (y + ("/" + t)))
  {}

  /** The bucket of a service: on GCS when the service is the only one. */
  function RootWith(service: Service, bucket: string): Root {
    if service.OnlyService? then GCSRoot(bucket) else S3Root(bucket)
  }

  lemma TrimmedJoin(y: string, z: string)
    requires y != "" && z != "" && Trimmed(y) && Trimmed(z)
    ensures Trimmed(y + ("/" + z))
  {
    var s := y + ("/" + z);
    assert s[0] == y[0] && s[|s| - 1] == z[|z| - 1];
  }

  lemma TrimmedMore(base: string, more: string)
    requires Trimmed(base) && Trimmed(more) && more != ""
    ensures Trimmed(base + more)
  {
    assert (base + more)[|base + more| - 1] == more[|more| - 1];
    assert (base + more)[0] == if base == "" then more[0] else base[0];
  }

  lemma SameSpelledSameLocation(a: Place, b: Place)
    requires Possible(a) && Possible(b) && Spelled(a) == Spelled(b)
    ensures PlaceOf(ContractAt(a), "") == a && PlaceOf(ContractAt(b), "") == b
    ensures Location(ContractAt(a)) == Location(ContractAt(b))
  {
    PossibleHasContract(a);
    PossibleHasContract(b);
    LocationIsSpelled(ContractAt(a), "");
    LocationIsSpelled(ContractAt(b), "");
  }

  lemma NoParenBefore(s: string)
    requires !HasParen(s)
    ensures !HasParen("(" + s)
  {
    var t := "(" + s;
    forall i | 0 <= i < |t| - 1 ensures !(t[i] == ' ' && t[i + 1] == '(') {
      assert i > 0 ==> t[i] == s[i - 1] && t[i + 1] == s[i];
    }
  }

  lemma TailsCollide(base: string, url: string)
    ensures WithService(base, REGION + ("(" + (ENDPOINT + url))) == WithService(base + " (region", ENDPOINT + url)
  {
    assert WithService(base, REGION + ("(" + (ENDPOINT + url))) == base + (" (region (" + (ENDPOINT + url + ")"));
    assert PAREN + "region" == " (region";
  }

  // Trees of objects below the base path.

  function Under(base: string, path: string): string {
    if path == "" then base else if base == "" then path else base + ("/" + path)
  }

  lemma BaseIsUnder(c: Contract, path: string)
    ensures BaseOf(c, path) == Under(BasePath(c), Trim(path))
  {
    var base, tree := BasePath(c), Trim(path);
    if tree == "" {
      TrimAfter(base);
      assert "/" + tree == "/";
    } else if base == "" {
      assert base + ("/" + tree) == "/" + tree;
      assert ("/" + tree)[1..] == tree;
      assert TrimLeft("/" + tree) == tree;
    } else {
      var joined := base + ("/" + tree);
      assert joined[0] == base[0] && joined[|joined| - 1] == tree[|tree| - 1];
      assert Trimmed(joined);
    }
  }

  lemma UnderIsInjective(a: string, b: string, path: string)
    requires Under(a, path) == Under(b, path)
    ensures a == b
  {
    if path != "" && a != "" && b != "" {
      var s, t := a + ("/" + path), b + ("/" + path);
      assert s[..|a|] == a && t[..|b|] == b;
    }
  }

  /** A retarget of the contract shows as a move of each tree of objects, and
      nothing else does. */
  lemma TreeMovesWithContract(c: Contract, d: Contract, path: string)
    ensures PlaceOf(c, path) == PlaceOf(d, path) <==> PlaceOf(c, "") == PlaceOf(d, "")
  {
    SameBase(c, d, path);
    OnlyTheBaseMoves(c, d, BaseOf(c, path), BaseOf(d, path), BaseOf(c, ""), BaseOf(d, ""));
  }

  lemma OnlyTheBaseMoves(c: Contract, d: Contract, x: string, y: string, x': string, y': string)
    requires x == y <==> x' == y'
    ensures PlaceAt(c, x) == PlaceAt(d, y) <==> PlaceAt(c, x') == PlaceAt(d, y')
  {}

  lemma SameBase(c: Contract, d: Contract, path: string)
    ensures BaseOf(c, path) == BaseOf(d, path) <==> BaseOf(c, "") == BaseOf(d, "")
  {
    BaseIsUnder(c, path);
    BaseIsUnder(d, path);
    BaseAtRoot(c);
    BaseAtRoot(d);
    if Under(BasePath(c), Trim(path)) == Under(BasePath(d), Trim(path)) {
      UnderIsInjective(BasePath(c), BasePath(d), Trim(path));
    }
  }
}
