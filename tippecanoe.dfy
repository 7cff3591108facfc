/**
 * The argument vectors given to the tile builder (once per layer) and to the
 * tile merger. The processes themselves are not modelled.
 */
module Tippecanoe {
  import opened Options

  /** The three layers that are built, each into its own tile set. */
  datatype Layer = Parcelles | Batiments | Sections

  function Name(layer: Layer): string
  {
    match layer
    case Parcelles => "parcelles"
    case Batiments => "batiments"
    case Sections => "sections"
  }

  /** How the builder thins out a tile that holds too many features. */
  datatype Density = CoalesceDensest | DropDensest

  /** Buildings, the densest layer, drop features; the other two coalesce them. */
  function DensityOf(layer: Layer): Density
  {
    if layer == Batiments then DropDensest else CoalesceDensest
  }

  function DensityFlag(density: Density): string
  {
    match density
    case CoalesceDensest => "--coalesce-densest-as-needed"
    case DropDensest => "--drop-densest-as-needed"
  }

  function MinZoom(layer: Layer): nat
  {
    match layer
    case Parcelles => 13
    case Batiments => 14
    case Sections => 11
  }

  const MAX_ZOOM: nat := 16

  const COMMON_OPTIONS: seq<string> := [
    "--no-tile-stats",
    "--detect-shared-borders",
    "--simplify-only-low-zooms",
    "--generate-ids",
    "--read-parallel",
    "--force"
  ]

  function Digit(d: nat): char
    requires d < 10
  {
    "0123456789"[d]
  }

  /** A zoom level written out in decimal; every zoom used here has two digits. */
  function TwoDigits(z: nat): string
    requires 10 <= z < 100
  {
    [Digit(z / 10), Digit(z % 10)]
  }

  function OutputPath(layer: Layer): string
  {
    "dist/" + Name(layer) + ".mbtiles"
  }

  /** The tile builder's arguments for one layer. */
  function TippecanoeArgs(layer: Layer): (argv: seq<string>)
    ensures |argv| == 13
    ensures argv[..6] == COMMON_OPTIONS
    ensures argv[6] == "--layer" && argv[7] == Name(layer)
    ensures argv[8] == (if layer == Batiments then "--drop-densest-as-needed" else "--coalesce-densest-as-needed")
    ensures argv[9] == (match layer case Parcelles => "-Z13" case Batiments => "-Z14" case Sections => "-Z11")
    ensures argv[10] == "-z16"
    ensures argv[11] == "--output" && argv[12] == "dist/" + Name(layer) + ".mbtiles"
  {
    COMMON_OPTIONS
    + ["--layer", Name(layer)]
    + [DensityFlag(DensityOf(layer))]
    + ["-Z" + TwoDigits(MinZoom(layer)), "-z" + TwoDigits(MAX_ZOOM)]
    + ["--output", OutputPath(layer)]
  }

  /** The value that follows the first occurrence of `flag`, as an option parser reads it. */
  function FlagValue(argv: seq<string>, flag: string): (v: Option<string>)
    decreases |argv|
  {
    if |argv| < 2 then None
    else if argv[0] == flag then Some(argv[1])
    else FlagValue(argv[1..], flag)
  }

  lemma {:induction false} FlagValueAfterPrefix(prefix: seq<string>, rest: seq<string>, flag: string)
    requires forall i :: 0 <= i < |prefix| ==> prefix[i] != flag
    requires |rest| >= 2 && rest[0] == flag
    ensures FlagValue(prefix + rest, flag) == Some(rest[1])
    decreases |prefix|
  {
    if prefix == [] {
      assert prefix + rest == rest;
    } else {
      assert (prefix + rest)[1..] == prefix[1..] + rest;
      FlagValueAfterPrefix(prefix[1..], rest, flag);
    }
  }

  /**
   * Read back by an option parser, each layer's arguments name that layer and
   * write to that layer's own output file.
   */
  lemma TippecanoeArgsReadBack(layer: Layer)
    ensures FlagValue(TippecanoeArgs(layer), "--layer") == Some(Name(layer))
    ensures FlagValue(TippecanoeArgs(layer), "--output") == Some(OutputPath(layer))
  {
    var argv := TippecanoeArgs(layer);
    assert argv == argv[..6] + argv[6..];
    FlagValueAfterPrefix(argv[..6], argv[6..], "--layer");
    assert argv == argv[..11] + argv[11..];
    FlagValueAfterPrefix(argv[..11], argv[11..], "--output");
  }

  /** The three builds never write to the same file. */
  lemma OutputPathsDistinct(a: Layer, b: Layer)
    requires a != b
    ensures OutputPath(a) != OutputPath(b)
  {
    assert OutputPath(a)[5] != OutputPath(b)[5];
  }

  const MERGED_OUTPUT: string := "dist/cadastre.mbtiles"

  /**
   * The merger's arguments: its options, its output, then the three per-layer
   * tile sets as inputs.
   */
  function TileJoinArgs(): (argv: seq<string>)
    ensures |argv| == 10
    ensures argv[..5] == ["--attribution=Etalab", "--name=cadastre", "--no-tile-size-limit", "--no-tile-stats", "--force"]
    ensures argv[5] == "--output" && argv[6] == MERGED_OUTPUT
    ensures argv[7..] == [OutputPath(Parcelles), OutputPath(Sections), OutputPath(Batiments)]
  {
    var argv := [
      "--attribution=Etalab",
      "--name=cadastre",
      "--no-tile-size-limit",
      "--no-tile-stats",
      "--force",
      "--output",
      MERGED_OUTPUT,
      "dist/parcelles.mbtiles",
      "dist/sections.mbtiles",
      "dist/batiments.mbtiles"
    ];
    assert OutputPath(Parcelles) == "dist/parcelles.mbtiles";
    assert OutputPath(Sections) == "dist/sections.mbtiles";
    assert OutputPath(Batiments) == "dist/batiments.mbtiles";
    argv
  }

  /** Read back by an option parser, the merger writes to the merged tile set. */
  lemma TileJoinArgsReadBack()
    ensures FlagValue(TileJoinArgs(), "--output") == Some(MERGED_OUTPUT)
  {
  }

  /** The merger reads every layer's tile set, and none of them is its own output. */
  lemma MergeReadsEveryLayer(layer: Layer)
    ensures OutputPath(layer) in TileJoinArgs()[7..]
    ensures OutputPath(layer) != MERGED_OUTPUT
  {
  }
}
