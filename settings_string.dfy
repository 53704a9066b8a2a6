/**
 * The one-line settings summary stored with a saved creation: six fixed segments
 * and, when the run has a description, a seventh, joined with " | ".
 */
module SettingsString {
  import opened JsString
  import opened GenerationTypes

  const Separator: string := " | "
  const CreativeFreedomEnabled: string := "Enabled (T=1.5, P=0.90)"
  const CreativeFreedomDisabled: string := "Disabled"
  /** `Resolution: 3840×2160 (4K)`, with the multiplication sign U+00D7. */
  const ResolutionSegment: string := "Resolution: 3840\U{00D7}2160 (4K)"

  /**
   * The segments in their fixed order: category, seed, variation (as a percentage),
   * Creative Freedom-B, the number of references, the resolution, then the
   * description if it is not empty.
   */
  function SettingsParts(run: GenerationRun, references: seq<ReferenceImage>): (parts: seq<string>)
    ensures |parts| == if run.description == "" then 6 else 7
    ensures parts[0] == "Category: " + run.category
    ensures parts[1] == "Seed: " + IntToString(run.seed)
    ensures parts[2] == "Variation: " + IntToString(run.variation) + "%"
    ensures parts[3] == "Creative Freedom-B: " + CreativeFreedomEnabled <==> run.creativeFreedom
    ensures parts[3] == "Creative Freedom-B: " + CreativeFreedomDisabled <==> !run.creativeFreedom
    ensures parts[4] == "References: " + NatToString(|references|) + " image(s)"
    ensures parts[5] == ResolutionSegment
    ensures run.description != "" ==> parts[6] == "Description: " + run.description
  {
    var fixed := [
      "Category: " + run.category,
      "Seed: " + IntToString(run.seed),
      "Variation: " + IntToString(run.variation) + "%",
      "Creative Freedom-B: " + (if run.creativeFreedom then CreativeFreedomEnabled else CreativeFreedomDisabled),
      "References: " + NatToString(|references|) + " image(s)",
      ResolutionSegment
    ];
    assert CreativeFreedomEnabled != CreativeFreedomDisabled by {
      assert CreativeFreedomEnabled[0] != CreativeFreedomDisabled[0];
    }
    assert forall a, b: string :: "Creative Freedom-B: " + a == "Creative Freedom-B: " + b ==> a == b by {
      forall a, b: string | "Creative Freedom-B: " + a == "Creative Freedom-B: " + b
        ensures a == b
      {
        var prefix := "Creative Freedom-B: ";
        assert a == (prefix + a)[|prefix|..];
        assert b == (prefix + b)[|prefix|..];
      }
    }
    if run.description != "" then fixed + ["Description: " + run.description] else fixed
  }

  /** `generateSettingsString(run, references)`: the segments joined with " | ". */
  function GenerateSettingsString(run: GenerationRun, references: seq<ReferenceImage>): string
  {
    Join(SettingsParts(run, references), Separator)
  }

  /**
   * The summary begins with the category segment and ends with the separator and
   * the description segment when there is a description, with the separator and the
   * resolution segment otherwise.
   */
  lemma SummaryEnds(run: GenerationRun, references: seq<ReferenceImage>)
    ensures "Category: " + run.category <= GenerateSettingsString(run, references)
    ensures var s := GenerateSettingsString(run, references);
      var last := if run.description == "" then ResolutionSegment else "Description: " + run.description;
      |s| >= |last| + |Separator| && s[|s| - |last| - |Separator|..] == Separator + last
  {
    var parts := SettingsParts(run, references);
    JoinStarts(parts, Separator);
    JoinEnds(parts, Separator);
  }

  /**
   * The summary depends on the run only through its category, seed, variation,
   * Creative Freedom flag and description, and on the references only through
   * their number: maps, run identifier and timestamp play no part.
   */
  lemma SummaryDependsOnSettingsOnly(run1: GenerationRun, run2: GenerationRun,
                                     references1: seq<ReferenceImage>, references2: seq<ReferenceImage>)
    requires run1.category == run2.category && run1.seed == run2.seed
    requires run1.variation == run2.variation && run1.creativeFreedom == run2.creativeFreedom
    requires run1.description == run2.description && |references1| == |references2|
    ensures GenerateSettingsString(run1, references1) == GenerateSettingsString(run2, references2)
  {
  }

  /**
   * Category "metal", seed 7, variation 10, Creative Freedom on, description
   * "rusted plate" and two references give, segment by segment,
   * `Category: metal | Seed: 7 | Variation: 10% | Creative Freedom-B: Enabled (T=1.5, P=0.90)
   * | References: 2 image(s) | Resolution: 3840×2160 (4K) | Description: rusted plate`.
   */
  lemma WorkedExample(maps: PBRMapSet, runId: string, timestamp: int, references: seq<ReferenceImage>)
    requires |references| == 2
    ensures GenerateSettingsString(GenerationRun(runId, timestamp, "metal", 7, 10, true, "rusted plate", maps), references)
         == "Category: metal" + " | " + "Seed: 7" + " | " + "Variation: 10%"
            + " | " + "Creative Freedom-B: Enabled (T=1.5, P=0.90)" + " | " + "References: 2 image(s)"
            + " | " + "Resolution: 3840\U{00D7}2160 (4K)" + " | " + "Description: rusted plate"
  {
    var run := GenerationRun(runId, timestamp, "metal", 7, 10, true, "rusted plate", maps);
    ExampleParts(run, references);
    JoinSeven("Category: metal", "Seed: 7", "Variation: 10%", "Creative Freedom-B: Enabled (T=1.5, P=0.90)",
              "References: 2 image(s)", ResolutionSegment, "Description: rusted plate", Separator);
  }

  lemma ExampleParts(run: GenerationRun, references: seq<ReferenceImage>)
    requires run.category == "metal" && run.seed == 7 && run.variation == 10 && run.creativeFreedom
    requires run.description == "rusted plate" && |references| == 2
    ensures SettingsParts(run, references)
         == ["Category: metal", "Seed: 7", "Variation: 10%", "Creative Freedom-B: Enabled (T=1.5, P=0.90)",
             "References: 2 image(s)", ResolutionSegment, "Description: rusted plate"]
  {
    var parts := SettingsParts(run, references);
    assert IntToString(7) == "7";
    assert IntToString(10) == NatToString(1) + [DigitChar(0)] == "10";
    assert NatToString(2) == "2";
    assert parts[0] == "Category: metal";
    assert parts[1] == "Seed: 7";
    assert parts[2] == "Variation: 10%";
    assert parts[3] == "Creative Freedom-B: Enabled (T=1.5, P=0.90)";
    assert parts[4] == "References: 2 image(s)";
    assert parts[6] == "Description: rusted plate";
  }

  lemma JoinSeven(p0: string, p1: string, p2: string, p3: string, p4: string, p5: string, p6: string, sep: string)
    ensures Join([p0, p1, p2, p3, p4, p5, p6], sep)
         == p0 + sep + p1 + sep + p2 + sep + p3 + sep + p4 + sep + p5 + sep + p6
  {
    JoinSnoc([p0], p1, sep);
    JoinSnoc([p0, p1], p2, sep);
    JoinSnoc([p0, p1, p2], p3, sep);
    JoinSnoc([p0, p1, p2, p3], p4, sep);
    JoinSnoc([p0, p1, p2, p3, p4], p5, sep);
    JoinSnoc([p0, p1, p2, p3, p4, p5], p6, sep);
    assert [p0] + [p1] == [p0, p1];
    assert [p0, p1] + [p2] == [p0, p1, p2];
    assert [p0, p1, p2] + [p3] == [p0, p1, p2, p3];
    assert [p0, p1, p2, p3] + [p4] == [p0, p1, p2, p3, p4];
    assert [p0, p1, p2, p3, p4] + [p5] == [p0, p1, p2, p3, p4, p5];
    assert [p0, p1, p2, p3, p4, p5] + [p6] == [p0, p1, p2, p3, p4, p5, p6];
  }
}
