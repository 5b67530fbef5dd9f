/** Concrete end-to-end cases of the locator and the normaliser, including
    the locator's behaviour when the platform resolver raises, returns a
    missing path, or is reached through a fallback key. */
module Scenarios {
  import opened Common
  import opened Settings
  import opened Locator
  import opened Annotations
  import opened Normalizer

  function RaisingResolver(): (string, Option<int>) -> Fetch {
    (u: string, id: Option<int>) => Raised
  }

  function FixedResolver(p: string): (string, Option<int>) -> Fetch {
    (u: string, id: Option<int>) => Fetched(p)
  }

  /** Two strings that differ at a shared position are not prefix-related. */
  lemma NotPrefix(a: string, b: string, i: nat)
    requires i < |a| && i < |b| && a[i] != b[i]
    ensures !(a <= b)
  {
  }

  /** A managed reference `/data/local-files/?d=<rel>` is classified as
      such. */
  lemma ManagedReference(rel: string)
    ensures Classify(ManagedPrefix + QueryMarker + rel).ManagedPath?
  {
    var v := ManagedPrefix + QueryMarker + rel;
    assert v[..|ManagedPrefix|] == ManagedPrefix;
    NotPrefix(HttpScheme, v, 0);
    NotPrefix(HttpsScheme, v, 0);
  }

  /** The text after the marker of a managed reference is `rel`: the
      prefix holds no `?`. */
  lemma ManagedReferenceRelativePart(rel: string)
    ensures AfterFirst(ManagedPrefix + QueryMarker + rel, QueryMarker) == Some(rel)
  {
    var url := ManagedPrefix + QueryMarker + rel;
    var n := |ManagedPrefix|;
    assert url[n..n + |QueryMarker|] == QueryMarker;
    assert OccursAt(url, QueryMarker, n);
    forall j: nat | j < n
      ensures !OccursAt(url, QueryMarker, j)
    {
      assert url[j] == ManagedPrefix[j];
      assert ManagedPrefix[j] != '?';
      if j + |QueryMarker| <= |url| {
        assert url[j..j + |QueryMarker|][0] == url[j];
      }
    }
    assert FindFrom(url, QueryMarker, 0) == Some(n);
  }

  /** A literal path that exists is returned unchanged. */
  lemma DirectPathThatExists()
    ensures GetImagePath(Task(Some(1), map["image" := Text("/abs/local/exists.png")]), "image",
                         Platform({"/abs/local/exists.png"}, RaisingResolver(), "/root"))
            == Some("/abs/local/exists.png")
  {
    var v := "/abs/local/exists.png";
    NotPrefix(HttpScheme, v, 0);
    NotPrefix(HttpsScheme, v, 0);
    NotPrefix(ManagedPrefix, v, 1);
  }

  /** An https value returns what the downloader returned, even though no
      file of that name is known to exist. */
  lemma RemoteUrlIsTrusted()
    ensures GetImagePath(Task(Some(2), map["image" := Text("https://host/img.png")]), "image",
                         Platform({}, FixedResolver("/cache/img.png"), "/root"))
            == Some("/cache/img.png")
  {
    assert IsRemote("https://host/img.png") by {
      assert "https://host/img.png"[..|HttpsScheme|] == HttpsScheme;
    }
  }

  /** The second root is `/data`: joined with a relative path it gives
      `/data/<rel>`. */
  lemma SecondRootJoin(home: string, rel: string)
    requires !(|rel| > 0 && rel[0] == '/')
    ensures Join(FallbackRoots(home)[1], rel) == "/data/" + rel
  {
  }

  /** A relative path present under the second root and not under the
      first is found at position 1. */
  lemma SecondRootHit(home: string, rel: string, existing: set<string>)
    requires !(|rel| > 0 && rel[0] == '/')
    requires Join(FallbackRoots(home)[0], rel) !in existing && "/data/" + rel in existing
    ensures Probe(FallbackRoots(home), rel, existing) == Some(1)
  {
    var roots := FallbackRoots(home);
    SecondRootJoin(home, rel);
    assert roots[1..][0] == roots[1];
  }

  /** The file exists under the second root and not the first: the probe
      returns the join with the second root. */
  lemma ProbeFindsSecondRoot(home: string, rel: string, existing: set<string>)
    requires !(|rel| > 0 && rel[0] == '/')
    requires Join(FallbackRoots(home)[0], rel) !in existing && "/data/" + rel in existing
    ensures TryFallbackPathResolution(ManagedPrefix + QueryMarker + rel, existing, home) == Some("/data/" + rel)
  {
    ManagedReferenceRelativePart(rel);
    SecondRootHit(home, rel, existing);
    SecondRootJoin(home, rel);
  }

  /** The whole locator on a managed reference under the configured key:
      the platform resolver raises, the file exists under the second root
      only, and `get_image_path` returns the path under `/data`. */
  lemma ManagedReferenceFoundUnderSecondRoot(id: Option<int>, rel: string, existing: set<string>, home: string)
    requires !(|rel| > 0 && rel[0] == '/')
    requires Join(FallbackRoots(home)[0], rel) !in existing && "/data/" + rel in existing
    ensures GetImagePath(Task(id, map["image" := Text(ManagedPrefix + QueryMarker + rel)]), "image",
                         Platform(existing, RaisingResolver(), home))
            == Some("/data/" + rel)
  {
    ManagedReference(rel);
    ProbeFindsSecondRoot(home, rel, existing);
  }

  /** A reference without `?d=` is not probed at all. */
  lemma ProbeNeedsQueryMarker()
    ensures TryFallbackPathResolution("/data/local-files/sub/file.png", {"/data/sub/file.png"}, "/root").None?
  {
    var url := "/data/local-files/sub/file.png";
    var rel := "sub/file.png";
    assert url == ManagedPrefix + rel;
    var n := |ManagedPrefix|;
    forall j: nat
      ensures !OccursAt(url, QueryMarker, j)
    {
      if j < n {
        assert url[j] == ManagedPrefix[j];
        assert ManagedPrefix[j] != '?';
      } else if j < |url| {
        assert url[j] == rel[j - n];
        assert rel[j - n] != '?';
      }
      if j + |QueryMarker| <= |url| {
        assert url[j..j + |QueryMarker|][0] == url[j];
      }
    }
  }

  /** The platform resolver succeeds but its path does not exist: no probe
      is made, even though the probe would have found the file. */
  lemma ResolvedButMissingIsNotProbed()
    ensures GetImagePath(Task(Some(3), map["image" := Text("/data/local-files/?d=sub/file.png")]), "image",
                         Platform({"/data/sub/file.png"}, FixedResolver("/wrong/file.png"), "/root"))
            == None
  {
    assert "/data/local-files/?d=sub/file.png" == ManagedPrefix + QueryMarker + "sub/file.png";
    ManagedReference("sub/file.png");
  }

  /** Under a fallback key the same raise gives no image, where under the
      configured key it would have been probed. */
  lemma FallbackKeyDoesNotProbe()
    ensures GetImagePath(Task(Some(4), map["img" := Text("/data/local-files/?d=sub/file.png")]), "image",
                         Platform({"/data/sub/file.png"}, RaisingResolver(), "/root"))
            == None
  {
    assert "/data/local-files/?d=sub/file.png" == ManagedPrefix + QueryMarker + "sub/file.png";
    ManagedReference("sub/file.png");
    var data := map["img" := Text("/data/local-files/?d=sub/file.png")];
    assert FirstPresent(data, FallbackKeys[2..]) == Some(0);
    assert FirstPresent(data, FallbackKeys[1..]) == Some(1);
    assert FirstPresent(data, FallbackKeys) == Some(2);
  }

  /** One mask with confidence 0.10 under the default threshold: no record,
      score 0. */
  lemma LowConfidencePolygonDropped()
    ensures var r := DetectorResult(
              Some(Masks(1, Some([[Point(0.1, 0.1), Point(0.2, 0.1), Point(0.2, 0.2)]]))),
              Some(Boxes(1, Some([0.10]), Some([0.0]), Some([CenterBox(0.15, 0.15, 0.1, 0.1)]))));
      ConvertResults([r], map[0 := "injection"], DefaultConfig) == EmptyPrediction("1.0.0")
  {
    var m := Masks(1, Some([[Point(0.1, 0.1), Point(0.2, 0.1), Point(0.2, 0.2)]]));
    var b := Some(Boxes(1, Some([0.10]), Some([0.0]), Some([CenterBox(0.15, 0.15, 0.1, 0.1)])));
    assert PolygonStep(m, b, 0, map[0 := "injection"], DefaultConfig) == Skip;
    RunWithoutEmits(PolygonSteps(m, b, map[0 := "injection"], DefaultConfig));
  }

  /** Each of the two boxes passes the threshold and emits its record. */
  lemma TwoBoxSteps(b: Boxes, names: map<int, string>)
    requires b.count == 2 && b.conf == Some([0.30, 0.90]) && b.cls.None?
    requires b.xywhn.Some? && |b.xywhn.value| == 2
    ensures BoxStep(b, 0, names, DefaultConfig) == Emit(ToRecord(Detection(0.30, 0, Frame(b.xywhn.value[0])), names, DefaultConfig))
    ensures BoxStep(b, 1, names, DefaultConfig) == Emit(ToRecord(Detection(0.90, 0, Frame(b.xywhn.value[1])), names, DefaultConfig))
  {
    assert ConfidenceAt(b, 0) == Some(0.30) && ClassIdAt(b, 0) == Some(0);
    assert ConfidenceAt(b, 1) == Some(0.90) && ClassIdAt(b, 1) == Some(0);
  }

  /** Two emitting iterations give their two records, in order. */
  lemma RunTwoEmits(steps: seq<Step>, r0: Annotation, r1: Annotation)
    requires |steps| == 2 && steps[0] == Emit(r0) && steps[1] == Emit(r1)
    ensures Run(steps).records == [r0] + [r1]
  {
    assert steps[..1][0] == steps[0];
    assert steps[..1][..0] == [];
    assert Run(steps[..1]) == Progress([r0], false);
  }

  /** The two records of a two-box result with confidences 0.30 and 0.90
      under the default threshold and no class column: both boxes are kept,
      in order, as rectangles of class 0. */
  lemma TwoBoxesKept(b: Boxes, names: map<int, string>)
    requires b.count == 2 && b.conf == Some([0.30, 0.90]) && b.cls.None?
    requires b.xywhn.Some? && |b.xywhn.value| == 2
    ensures CreateBboxPredictions(b, names, DefaultConfig) ==
      [ToRecord(Detection(0.30, 0, Frame(b.xywhn.value[0])), names, DefaultConfig)] +
      [ToRecord(Detection(0.90, 0, Frame(b.xywhn.value[1])), names, DefaultConfig)]
  {
    TwoBoxSteps(b, names);
    var steps := BoxSteps(b, names, DefaultConfig);
    RunTwoEmits(steps, ToRecord(Detection(0.30, 0, Frame(b.xywhn.value[0])), names, DefaultConfig),
                ToRecord(Detection(0.90, 0, Frame(b.xywhn.value[1])), names, DefaultConfig));
  }

  /** The mean of the scores of two records scoring 0.30 and 0.90. */
  lemma TwoScoresAverage(rs: seq<Annotation>)
    requires |rs| == 2 && rs[0].score == 0.30 && rs[1].score == 0.90
    ensures Mean(Scores(rs)) == 0.60
  {
    var xs := Scores(rs);
    assert xs[..1][..0] == [] && xs[..1][0] == 0.30;
    assert Sum(xs[..1]) == 0.30;
  }

  /** Two boxes with confidences 0.30 and 0.90 under the default threshold
      and no class column: two rectangles of class 0, in order; the
      aggregate score is 0.60. */
  lemma TwoBoxesAveraged(b: Boxes, names: map<int, string>)
    requires b.count == 2 && b.conf == Some([0.30, 0.90]) && b.cls.None?
    requires b.xywhn.Some? && |b.xywhn.value| == 2
    ensures var p := ConvertResults([DetectorResult(None, Some(b))], names, DefaultConfig);
      && |p.result| == 2 && p.score == 0.60
      && p.result[0] == ToRecord(Detection(0.30, 0, Frame(b.xywhn.value[0])), names, DefaultConfig)
      && p.result[1] == ToRecord(Detection(0.90, 0, Frame(b.xywhn.value[1])), names, DefaultConfig)
  {
    TwoBoxesKept(b, names);
    var rs := CreateBboxPredictions(b, names, DefaultConfig);
    TwoScoresAverage(rs);
  }

  /** A kept mask whose contour has no points still yields a polygon
      record, with no points. */
  lemma EmptyContourStillEmitted(m: Masks, b: Boxes, names: map<int, string>)
    requires m.count == 1 && m.xyn == Some([[]])
    requires b.conf == Some([0.5]) && b.cls.None?
    ensures var rs := CreatePolygonPredictions(m, Some(b), names, DefaultConfig);
      |rs| == 1 && rs[0].value.PolygonValue? && rs[0].value.points == []
  {
    var r := ToRecord(Detection(0.5, 0, Contour([])), names, DefaultConfig);
    assert ConfidenceAt(b, 0) == Some(0.5) && ClassIdAt(b, 0) == Some(0);
    var steps := PolygonSteps(m, Some(b), names, DefaultConfig);
    assert steps[0] == Emit(r);
    assert steps[..0] == [];
    assert Run(steps).records == [r];
  }

  /** Two masks whose class and contour columns hold one entry each: the
      second instance is below the threshold, so the loop never reads past
      those columns, and the first instance is kept as one polygon. */
  lemma ShortColumnsBelowThreshold(m: Masks, b: Boxes, p: Point, names: map<int, string>)
    requires m.count == 2 && m.xyn == Some([[p]])
    requires b.conf == Some([0.5, 0.1]) && b.cls == Some([1.0])
    ensures CreatePolygonPredictions(m, Some(b), names, DefaultConfig) ==
      [ToRecord(Detection(0.5, 1, Contour([p])), names, DefaultConfig)]
  {
    var r := ToRecord(Detection(0.5, 1, Contour([p])), names, DefaultConfig);
    assert ConfidenceAt(b, 0) == Some(0.5) && ClassIdAt(b, 0) == Some(1);
    assert ConfidenceAt(b, 1) == Some(0.1);
    var steps := PolygonSteps(m, Some(b), names, DefaultConfig);
    assert steps[0] == Emit(r) && steps[1] == Skip;
    assert steps[..1][..0] == [] && steps[..1][0] == Emit(r);
    assert Run(steps[..1]).records == [r];
  }

  /** Two masks but a confidence column with one entry at 0.5: reading the
      second confidence raises inside the polygon loop, which keeps the
      first polygon, so the task scores 0.5 rather than 0. */
  lemma PartialFailureKeepsRecord(m: Masks, b: Boxes, p: Point, names: map<int, string>)
    requires m.count == 2 && m.xyn == Some([[p], [p]])
    requires b.conf == Some([0.5]) && b.cls.None?
    ensures var pr := ConvertResults([DetectorResult(Some(m), Some(b))], names, DefaultConfig);
      && pr.result == [ToRecord(Detection(0.5, 0, Contour([p])), names, DefaultConfig)]
      && pr.score == 0.5
  {
    var r := ToRecord(Detection(0.5, 0, Contour([p])), names, DefaultConfig);
    assert ConfidenceAt(b, 0) == Some(0.5) && ClassIdAt(b, 0) == Some(0);
    assert ConfidenceAt(b, 1).None?;
    PolygonFailureKeepsEarlierRecords(m, Some(b), names, DefaultConfig, 1);
    var steps := PolygonSteps(m, Some(b), names, DefaultConfig);
    assert steps[..1][..0] == [] && steps[..1][0] == Emit(r);
    assert Run(steps[..1]).records == [r];
    var xs := Scores([r]);
    assert xs[..0] == [] && xs[0] == 0.5;
    assert Sum(xs) == 0.5 && Mean(xs) == 0.5;
  }
}
