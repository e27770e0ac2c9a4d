/** Block volumes: what a specification may be, which lists an instance accepts, and finding a volume by its label. */
module Volumes {
  import opened Kebab
  import opened Labels
  import opened Text
  import opened Wrappers

  const MIN_SIZE := 50
  const MAX_SIZE := 32768
  const VALID_VPUS := {0, 10, 20, 120}

  datatype VolumeSpec = VolumeSpec(size: int, tag: string, vpus: int, readOnly: bool, device: Option<string>)

  datatype VolumeError =
    | TooSmall | TooLarge | BadPerformance | BadLabel      // one specification
    | NoVolumes | DuplicateVolumeLabels | NoSuchLabel      // the list of an instance

  /** The checks in the order in which they are made. */
  function Validate(v: VolumeSpec): Result<VolumeSpec, VolumeError> {
    if v.size < MIN_SIZE then Err(TooSmall)
    else if v.size > MAX_SIZE then Err(TooLarge)
    else if v.vpus !in VALID_VPUS then Err(BadPerformance)
    else if !LabelMatches(v.tag) then Err(BadLabel)
    else Ok(v)
  }

  /** What a specification must be, in the words of the error messages. */
  predicate Meets(v: VolumeSpec) {
    MIN_SIZE <= v.size <= MAX_SIZE && v.vpus in VALID_VPUS && IsKebab(Chomp(v.tag))
  }

  /** A specification is constructed exactly when it meets all four demands, and the error names the first it misses. */
  lemma ValidationExact(v: VolumeSpec)
    ensures Validate(v) == Ok(v) <==> Meets(v)
    ensures Validate(v) == Err(BadLabel) <==> Meets(v.(tag := "data")) && !IsKebab(Chomp(v.tag))
    ensures Validate(v) == Err(BadPerformance) <==> MIN_SIZE <= v.size <= MAX_SIZE && v.vpus !in VALID_VPUS
    ensures Validate(v) == Err(TooSmall) <==> v.size < MIN_SIZE
    ensures Validate(v) == Err(TooLarge) <==> v.size > MAX_SIZE
  {
    LabelLanguage(v.tag);
    assert Chomp("data") == "data";
  }

  // ---- The list of an instance -----------------------------------------------------------------------

  function Tags(specs: seq<VolumeSpec>): (tags: seq<string>)
    ensures |tags| == |specs| && forall i :: 0 <= i < |specs| ==> tags[i] == specs[i].tag
  {
    seq(|specs|, i requires 0 <= i < |specs| => specs[i].tag)
  }

  function Count(tags: seq<string>, tag: string): nat {
    if tags == [] then 0 else (if tags[0] == tag then 1 else 0) + Count(tags[1..], tag)
  }

  function Duplicates(tags: seq<string>): set<string> {
    set tag | tag in tags && Count(tags, tag) > 1
  }

  const DEFAULT_VOLUMES := [VolumeSpec(100, "data", 10, false, None)]

  function ResolveVolumes(volumes: Option<seq<VolumeSpec>>): Result<seq<VolumeSpec>, VolumeError> {
    if volumes.Some? && volumes.value == [] then Err(NoVolumes)
    else
      var specs := if volumes.None? then DEFAULT_VOLUMES else volumes.value;
      if Duplicates(Tags(specs)) != {} then Err(DuplicateVolumeLabels) else Ok(specs)
  }

  predicate Distinct(tags: seq<string>) {
    forall i, j :: 0 <= i < j < |tags| ==> tags[i] != tags[j]
  }

  lemma {:induction false} CountPositive(tags: seq<string>, tag: string)
    ensures Count(tags, tag) > 0 <==> tag in tags
  {
    if tags != [] {
      CountPositive(tags[1..], tag);
    }
  }

  lemma {:induction false} CountTwice(tags: seq<string>, tag: string)
    ensures Count(tags, tag) > 1 <==> exists i, j :: 0 <= i < j < |tags| && tags[i] == tags[j] == tag
  {
    if tags != [] {
      var rest := tags[1..];
      CountPositive(rest, tag);
      CountTwice(rest, tag);
      if tags[0] == tag && tag in rest {
        var j :| 0 <= j < |rest| && rest[j] == tag;
        assert tags[0] == tags[j + 1] == tag;
      }
      if i, j :| 0 <= i < j < |rest| && rest[i] == rest[j] == tag {
        assert tags[i + 1] == tags[j + 1] == tag;
      }
      if i, j :| 0 <= i < j < |tags| && tags[i] == tags[j] == tag {
        assert tags[j] == rest[j - 1];
        assert i > 0 ==> tags[i] == rest[i - 1];
      }
    }
  }

  /** The counting check finds exactly the lists with a repeated label. */
  lemma DuplicatesExact(tags: seq<string>)
    ensures Duplicates(tags) == {} <==> Distinct(tags)
  {
    if !Distinct(tags) {
      var i, j :| 0 <= i < j < |tags| && tags[i] == tags[j];
      CountTwice(tags, tags[i]);
      assert tags[i] in Duplicates(tags);
    } else if Duplicates(tags) != {} {
      var tag :| tag in Duplicates(tags);
      CountTwice(tags, tag);
    }
  }

  /** A list is accepted exactly when it is left out, or is not empty and repeats no label. */
  lemma ResolveExact(volumes: Option<seq<VolumeSpec>>)
    ensures ResolveVolumes(volumes).Ok? <==> (volumes.Some? ==> volumes.value != [] && Distinct(Tags(volumes.value)))
    ensures ResolveVolumes(volumes).Ok? ==>
              var specs := ResolveVolumes(volumes).value;
              specs != [] && Distinct(Tags(specs)) && (volumes.Some? ==> specs == volumes.value)
    ensures volumes.None? ==> ResolveVolumes(volumes) == Ok([VolumeSpec(100, "data", 10, false, None)])
  {
    DuplicatesExact(Tags(DEFAULT_VOLUMES));
    if volumes.Some? {
      DuplicatesExact(Tags(volumes.value));
    }
  }

  // ---- Attaching and finding -------------------------------------------------------------------------

  /** A created volume and its attachment: ordinal name, size and performance as created, and the label tag. */
  datatype Volume = Volume(slot: string, size: int, vpus: int, tag: string)
  datatype Attachment = Attachment(slot: string, volume: string, readOnly: bool, device: Option<string>)

  function VolumeAt(spec: VolumeSpec, index: nat): Volume {
    Volume(OrdinalSuffix("vol", index), spec.size, spec.vpus, spec.tag)
  }

  function AttachmentAt(spec: VolumeSpec, index: nat): Attachment {
    Attachment(OrdinalSuffix("vol-attach", index), OrdinalSuffix("vol", index), spec.readOnly, spec.device)
  }

  class InstanceDisks {
    var specs: seq<VolumeSpec>
    var blockVolumes: seq<Volume>
    var attachments: seq<Attachment>

    /** One volume and one attachment for each specification, in order; no label twice. */
    ghost predicate Valid()
      reads this
    {
      && |blockVolumes| == |attachments| == |specs| > 0
      && Distinct(Tags(specs))
      && (forall i :: 0 <= i < |specs| ==>
          blockVolumes[i] == VolumeAt(specs[i], i) && attachments[i] == AttachmentAt(specs[i], i))
    }

    constructor (specs: seq<VolumeSpec>)
      ensures this.specs == specs && blockVolumes == [] && attachments == []
    {
      this.specs, blockVolumes, attachments := specs, [], [];
    }

    static method Create(volumes: Option<seq<VolumeSpec>>) returns (r: Result<InstanceDisks, VolumeError>)
      ensures match ResolveVolumes(volumes)
              case Ok(specs) => r.Ok? && fresh(r.value) && r.value.Valid() && r.value.specs == specs
              case Err(e) => r == Err(e)
    {
      ResolveExact(volumes);
      var resolved := ResolveVolumes(volumes);
      if resolved.Err? {
        return Err(resolved.error);
      }
      var disks := new InstanceDisks(resolved.value);
      disks.AttachBlockVolumes();
      return Ok(disks);
    }

    method AttachBlockVolumes()
      requires blockVolumes == [] && attachments == [] && specs != [] && Distinct(Tags(specs))
      modifies this`blockVolumes, this`attachments
      ensures Valid()
    {
      for index := 0 to |specs|
        invariant |blockVolumes| == |attachments| == index
        invariant forall i :: 0 <= i < index ==>
                    blockVolumes[i] == VolumeAt(specs[i], i) && attachments[i] == AttachmentAt(specs[i], i)
      {
        var spec := specs[index];
        var volume := Volume(OrdinalSuffix("vol", index), spec.size, spec.vpus, spec.tag);
        blockVolumes := blockVolumes + [volume];
        attachments := attachments
            + [Attachment(OrdinalSuffix("vol-attach", index), volume.slot, spec.readOnly, spec.device)];
      }
    }

    /** The volume found carries the label and its specification's size and performance; only unknown labels raise. */
    method GetVolume(tag: string) returns (r: Result<Volume, VolumeError>)
      requires Valid()
      ensures r.Ok? <==> tag in Tags(specs)
      ensures r.Ok? ==> r.value in blockVolumes && r.value.tag == tag
                        && forall s :: s in specs && s.tag == tag ==> r.value.size == s.size && r.value.vpus == s.vpus
      ensures r.Err? ==> r.error == NoSuchLabel
    {
      for i := 0 to |specs|
        invariant tag !in Tags(specs)[..i]
      {
        if specs[i].tag == tag {
          assert Tags(specs)[i] == tag;
          return Ok(blockVolumes[i]);
        }
        assert Tags(specs)[..i + 1] == Tags(specs)[..i] + [specs[i].tag];
      }
      assert Tags(specs)[..|specs|] == Tags(specs);
      return Err(NoSuchLabel);
    }

    /** The attachment found is the one of the volume with that label. */
    method GetVolumeAttachment(tag: string) returns (r: Result<Attachment, VolumeError>)
      requires Valid()
      ensures r.Ok? <==> tag in Tags(specs)
      ensures r.Ok? ==> r.value in attachments
                        && (forall v :: v in blockVolumes ==> (v.slot == r.value.volume <==> v.tag == tag))
                        && forall s :: s in specs && s.tag == tag ==>
                            r.value.readOnly == s.readOnly && r.value.device == s.device
      ensures r.Err? ==> r.error == NoSuchLabel
    {
      for i := 0 to |specs|
        invariant tag !in Tags(specs)[..i]
      {
        if specs[i].tag == tag {
          assert Tags(specs)[i] == tag;
          NamesIdentify(specs, i);
          return Ok(attachments[i]);
        }
        assert Tags(specs)[..i + 1] == Tags(specs)[..i] + [specs[i].tag];
      }
      assert Tags(specs)[..|specs|] == Tags(specs);
      return Err(NoSuchLabel);
    }
  }

  /** With distinct labels, ordinal names and labels pick out the same volume. */
  lemma NamesIdentify(specs: seq<VolumeSpec>, i: nat)
    requires i < |specs| && Distinct(Tags(specs))
    ensures forall j :: 0 <= j < |specs| ==>
              (VolumeAt(specs[j], j).slot == VolumeAt(specs[i], i).slot <==> specs[j].tag == specs[i].tag)
  {
    forall j | 0 <= j < |specs|
      ensures VolumeAt(specs[j], j).slot == VolumeAt(specs[i], i).slot <==> specs[j].tag == specs[i].tag
    {
      assert Tags(specs)[i] == specs[i].tag && Tags(specs)[j] == specs[j].tag;
      if VolumeAt(specs[j], j).slot == VolumeAt(specs[i], i).slot {
        OrdinalSuffixInjective("vol", j, "vol", i);
      }
    }
  }
}
