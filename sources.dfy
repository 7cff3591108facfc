/**
 * Where one department's layer archive is read from: the location template of
 * `getCadastreLayerURL` and the choice between a remote fetch and a file read.
 */
module Sources {
  import opened Options
  import opened Strings

  const DEFAULT_BASE_URL: string :=
    "https://" + "cadastre.data.gouv.fr/data/etalab-cadastre/latest/geojson/departements"

  const CADASTRE_INFIX: string := "/cadastre-"
  const ARCHIVE_SUFFIX: string := ".json.gz"

  /**
   * `args.baseurl || DEFAULT`: an absent or empty `--baseurl` option falls back
   * to the public download site; any other value is used as it is.
   */
  function BaseURL(baseurl: Option<string>): (base: string)
    ensures baseurl.Some? && baseurl.value != "" ==> base == baseurl.value
    ensures baseurl.None? || baseurl.value == "" ==> base == DEFAULT_BASE_URL
  {
    match baseurl
    case Some(value) => if value != "" then value else DEFAULT_BASE_URL
    case None => DEFAULT_BASE_URL
  }

  /** `${baseURL}/${code}/cadastre-${code}-${layerName}.json.gz` */
  function LayerURL(baseURL: string, layerName: string, code: string): (location: string)
    ensures StartsWith(location, baseURL + "/" + code + CADASTRE_INFIX + code)
    ensures EndsWith(location, "-" + layerName + ARCHIVE_SUFFIX)
    ensures |location| == |baseURL| + 2 * |code| + |layerName| + 20
  {
    var location := baseURL + "/" + code + CADASTRE_INFIX + code + "-" + layerName + ARCHIVE_SUFFIX;
    assert location[..|baseURL + "/" + code + CADASTRE_INFIX + code|] == baseURL + "/" + code + CADASTRE_INFIX + code;
    location
  }

  /**
   * The inverse of `LayerURL` for a fixed base and layer: the department code a
   * location was built from, if it has the template's shape.
   */
  function CodeOfLayerURL(baseURL: string, layerName: string, location: string): (code: Option<string>)
    ensures code.Some? ==> LayerURL(baseURL, layerName, code.value) == location
  {
    var head := baseURL + "/";
    var tail := "-" + layerName + ARCHIVE_SUFFIX;
    if |location| < |head| + |tail| || location[..|head|] != head || location[|location| - |tail|..] != tail then
      None
    else
      var middle := location[|head|..|location| - |tail|];
      if |middle| < |CADASTRE_INFIX| then None
      else
        var c := middle[..(|middle| - |CADASTRE_INFIX|) / 2];
        if middle != c + CADASTRE_INFIX + c then None
        else
          assert location == location[..|head|] + middle + location[|location| - |tail|..];
          Some(c)
  }

  /** Every location built from the template gives back its own code. */
  lemma CodeOfLayerURLRoundTrip(baseURL: string, layerName: string, code: string)
    ensures CodeOfLayerURL(baseURL, layerName, LayerURL(baseURL, layerName, code)) == Some(code)
  {
    var location := LayerURL(baseURL, layerName, code);
    var head := baseURL + "/";
    var tail := "-" + layerName + ARCHIVE_SUFFIX;
    var middle := code + CADASTRE_INFIX + code;
    assert location == head + middle + tail;
    assert location[..|head|] == head;
    assert location[|location| - |tail|..] == tail;
    assert location[|head|..|location| - |tail|] == middle;
    assert middle[..|code|] == code;
  }

  /** Two departments of one layer never share a location. */
  lemma LayerURLInjective(baseURL: string, layerName: string, code1: string, code2: string)
    requires LayerURL(baseURL, layerName, code1) == LayerURL(baseURL, layerName, code2)
    ensures code1 == code2
  {
    CodeOfLayerURLRoundTrip(baseURL, layerName, code1);
    CodeOfLayerURLRoundTrip(baseURL, layerName, code2);
  }

  /** A location is fetched over the network exactly when it starts with "http". */
  predicate IsRemote(location: string)
  {
    StartsWith(location, "http")
  }

  /** The byte source a sub-pipeline starts from (the I/O itself is not modelled). */
  datatype Source = RemoteFetch(url: string) | FileRead(path: string)

  /** `got.stream(location)` for a remote location, `createReadStream(location)` otherwise. */
  function Open(location: string): (source: Source)
    ensures source.RemoteFetch? <==> IsRemote(location)
    ensures source == RemoteFetch(location) || source == FileRead(location)
  {
    if IsRemote(location) then RemoteFetch(location) else FileRead(location)
  }

  /**
   * The remote/local choice depends on the base URL alone: all departments of
   * a run are fetched, or all are read from disk.
   */
  lemma RemoteIffBaseRemote(baseURL: string, layerName: string, code: string)
    ensures IsRemote(LayerURL(baseURL, layerName, code)) <==> IsRemote(baseURL)
  {
    var location := LayerURL(baseURL, layerName, code);
    assert location == baseURL + ("/" + code + CADASTRE_INFIX + code + "-" + layerName + ARCHIVE_SUFFIX);
    if |baseURL| >= 4 {
      assert location[..4] == baseURL[..4];
    } else {
      assert location[|baseURL|] == '/';
      assert "http"[|baseURL|] != '/';
    }
  }

  /** Without `--baseurl`, every department is fetched from the network. */
  lemma DefaultBaseIsRemote(layerName: string, code: string)
    ensures Open(LayerURL(BaseURL(None), layerName, code)).RemoteFetch?
  {
  }
}
