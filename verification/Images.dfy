/** Choosing the machine image and mapping block devices (pkg/actuators/machine/instances.go). */
module Images {
  import opened Wrappers

  datatype Image = Image(id: string, creationDate: string, rootDeviceName: Option<string>)

  datatype DescribeError = DescribeError

  datatype ImageError = DescribeImagesFailed | NoImage | UnparsedDate(imageID: string) | NothingSpecified

  /** The image to launch: the given one, else the latest of those the filters select. */
  method GetAMI(id: Option<string>, filters: seq<string>, reply: Result<seq<Image>, DescribeError>,
                parseTime: string -> Option<int>)
    returns (r: Result<string, ImageError>)
    ensures id.Some? ==> r == Ok(id.value)
    ensures id.None? && filters == [] ==> r == Err(NothingSpecified)
    ensures id.None? && filters != [] && reply.Err? ==> r == Err(DescribeImagesFailed)
    ensures id.None? && filters != [] && reply.Ok? && reply.value == [] ==> r == Err(NoImage)
    ensures id.None? && filters != [] && reply.Ok? && reply.value != [] ==>
      var images := reply.value;
      && (r.Err? <==> exists i :: 0 <= i < |images| && parseTime(images[i].creationDate).None?)
      && (r.Ok? ==> exists i :: 0 <= i < |images| && r.value == images[i].id && IsFirstLatest(images, i, parseTime))
  {
    if id.Some? {
      return Ok(id.value);
    }
    if |filters| > 0 {
      if reply.Err? {
        return Err(DescribeImagesFailed);
      }
      var images := reply.value;
      if |images| < 1 {
        return Err(NoImage);
      }
      var latestImage := images[0];
      var parsed := parseTime(latestImage.creationDate);
      if parsed.None? {
        return Err(UnparsedDate(latestImage.id));
      }
      var latestTime := parsed.value;
      ghost var k := 0;
      for i := 1 to |images|
        invariant 0 <= k < i && latestImage == images[k] && parseTime(images[k].creationDate) == Some(latestTime)
        invariant IsFirstLatest(images[..i], k, parseTime)
      {
        parsed := parseTime(images[i].creationDate);
        if parsed.None? {
          return Err(UnparsedDate(images[i].id));
        }
        if latestTime < parsed.value {
          latestImage, latestTime := images[i], parsed.value;
          k := i;
        }
      }
      assert images[..|images|] == images;
      return Ok(latestImage.id);
    }
    return Err(NothingSpecified);
  }

  /** Image i was created no earlier than any other and later than those listed before it; every date parses. */
  predicate IsFirstLatest(images: seq<Image>, i: int, parseTime: string -> Option<int>) {
    && 0 <= i < |images|
    && (forall j :: 0 <= j < |images| ==> parseTime(images[j].creationDate).Some?)
    && (forall j :: 0 <= j < |images| ==>
          parseTime(images[j].creationDate).value <= parseTime(images[i].creationDate).value)
    && (forall j :: 0 <= j < i ==> parseTime(images[j].creationDate).value < parseTime(images[i].creationDate).value)
  }

  // ---- Block devices ----

  datatype EBS = EBS(volumeSize: Option<int>, volumeType: Option<string>, encrypted: Option<bool>,
                     iops: Option<int>, throughputMib: Option<int>, kmsKeyID: Option<string>, kmsKeyARN: Option<string>)

  datatype DeviceSpec = DeviceSpec(deviceName: Option<string>, ebs: Option<EBS>)

  datatype Mapping = Mapping(deviceName: Option<string>, volumeSize: Option<int>, volumeType: Option<string>,
                             encrypted: Option<bool>,
                             deleteOnTermination: bool, iops: Option<int>, throughput: Option<int>,
                               kmsKey: Option<string>)

  datatype DeviceError = DescribeImageFailed | ImageNotFound | NonRootWithoutName

  /** The specs that describe EBS volumes, in order. */
  function EBSSpecs(specs: seq<DeviceSpec>): (r: seq<DeviceSpec>)
    ensures forall s :: s in r <==> s in specs && s.ebs.Some?
  {
    if specs == [] then []
    else
      var n := |specs| - 1;
      assert specs == specs[..n] + [specs[n]];
      EBSSpecs(specs[..n]) + (if specs[n].ebs.Some? then [specs[n]] else [])
  }

  /** The EBS specs keep the order of the list. */
  lemma {:induction false} EBSSpecsJoin(a: seq<DeviceSpec>, b: seq<DeviceSpec>)
    ensures EBSSpecs(a + b) == EBSSpecs(a) + EBSSpecs(b)
    ensures |b| == 1 && b[0].ebs.Some? ==> EBSSpecs(a + b) == EBSSpecs(a) + b
  {
    if b == [] {
      assert a + b == a;
    } else {
      var n := |b| - 1;
      assert (a + b)[..|a + b| - 1] == a + b[..n];
      EBSSpecsJoin(a, b[..n]);
    }
  }

  predicate Positive(v: Option<int>) {
    v.Some? && v.value > 0
  }

  function NonEmpty(v: Option<string>): Option<string> {
    if v.Some? && v.value != "" then v else None
  }

  /** What one EBS volume on the given device must become. */
  predicate Maps(ebs: EBS, m: Mapping, deviceName: Option<string>) {
    && m.deviceName == deviceName
    && m.volumeSize == ebs.volumeSize && m.volumeType == ebs.volumeType && m.encrypted == ebs.encrypted
       && m.deleteOnTermination
    && m.iops == (if ebs.volumeType in {Some("io1"), Some("io2"), Some("gp3")} && Positive(ebs.iops)
                  then ebs.iops else None)
    && m.throughput == (if ebs.volumeType == Some("gp3") && Positive(ebs.throughputMib)
                        then ebs.throughputMib else None)
    && m.kmsKey == (if NonEmpty(ebs.kmsKeyID).Some? then ebs.kmsKeyID else NonEmpty(ebs.kmsKeyARN))
  }

  method MapDevice(ebs: EBS, deviceName: Option<string>) returns (m: Mapping)
    ensures Maps(ebs, m, deviceName)
  {
    m := Mapping(deviceName, ebs.volumeSize, ebs.volumeType, ebs.encrypted, true, None, None, None);
    if ebs.volumeType == Some("io1") || ebs.volumeType == Some("io2") || ebs.volumeType == Some("gp3") {
      if ebs.iops.Some? && ebs.iops.value > 0 {
        m := m.(iops := ebs.iops);
      }
      if ebs.volumeType == Some("gp3") && ebs.throughputMib.Some? && ebs.throughputMib.value > 0 {
        m := m.(throughput := ebs.throughputMib);
      }
    }
    if ebs.kmsKeyID.GetOr("") != "" {
      m := m.(kmsKey := ebs.kmsKeyID);
    } else if ebs.kmsKeyARN.GetOr("") != "" {
      m := m.(kmsKey := ebs.kmsKeyARN);
    }
  }

  predicate AllMapped(specs: seq<DeviceSpec>, mappings: seq<Mapping>, rootDeviceName: Option<string>)
    requires forall s :: s in specs ==> s.ebs.Some?
  {
    && |mappings| == |specs|
    && forall i :: 0 <= i < |mappings| ==>
         Maps(specs[i].ebs.value, mappings[i],
              if specs[i].deviceName.Some? then specs[i].deviceName else rootDeviceName)
  }

  predicate Nameless(specs: seq<DeviceSpec>, i: int) {
    0 <= i < |specs| && specs[i].ebs.Some? && specs[i].deviceName.None?
  }

  /** The mappings of a launch: when the image is found this fails exactly when two EBS specs have no device name,
      and otherwise maps the EBS specs in order. */
  method GetBlockDeviceMappings(specs: seq<DeviceSpec>, reply: Result<seq<Image>, DescribeError>)
    returns (r: Result<seq<Mapping>, DeviceError>)
    ensures specs == [] ==> r == Ok([])
    ensures specs != [] && reply.Err? ==> r == Err(DescribeImageFailed)
    ensures specs != [] && reply.Ok? && reply.value == [] ==> r == Err(ImageNotFound)
    ensures specs != [] && reply.Ok? && reply.value != [] ==>
      && (r.Err? ==> r.error == NonRootWithoutName)
      && (r.Err? <==> exists i, j :: i < j && Nameless(specs, i) && Nameless(specs, j))
      && (r.Ok? ==> AllMapped(EBSSpecs(specs), r.value, reply.value[0].rootDeviceName))
  {
    hide Maps;
    var mappings: seq<Mapping> := [];
    if |specs| == 0 {
      return Ok(mappings);
    }
    if reply.Err? {
      return Err(DescribeImageFailed);
    }
    if |reply.value| < 1 {
      return Err(ImageNotFound);
    }
    var rootDeviceFound := false;
    ghost var root := -1;
    for i := 0 to |specs|
      invariant rootDeviceFound ==> root < i && Nameless(specs, root)
      invariant forall j :: 0 <= j < i && Nameless(specs, j) ==> rootDeviceFound && j == root
      invariant AllMapped(EBSSpecs(specs[..i]), mappings, reply.value[0].rootDeviceName)
    {
      assert specs[..i + 1][..i] == specs[..i];
      var spec := specs[i];
      if spec.ebs.None? {
        continue;
      }
      var ebs := spec.ebs.value;
      assert EBSSpecs(specs[..i + 1]) == EBSSpecs(specs[..i]) + [spec];
      var deviceName := spec.deviceName;
      if spec.deviceName.None? {
        if rootDeviceFound {
          assert Nameless(specs, root) && Nameless(specs, i);
          return Err(NonRootWithoutName);
        }
        rootDeviceFound := true;
        root := i;
        deviceName := reply.value[0].rootDeviceName;
      }
      var m := MapDevice(ebs, deviceName);
      mappings := mappings + [m];
    }
    assert specs[..|specs|] == specs;
    return Ok(mappings);
  }
}
