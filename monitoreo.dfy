/** The camera-monitoring page of an area: one card per stream, each with a
    per-camera status kept in two id-keyed flag maps, `streamErrors` and
    `streamLoading`, that the image's load/error events and the retry button
    update. */
module Monitoreo {
  import opened Wrappers
  import opened Entities
  import opened JsText
  import opened JsNumbers
  import opened Seqs

  /** The page's two flag maps, as values. */
  datatype StreamFlags = StreamFlags(errors: map<int, bool>, loading: map<int, bool>)

  /** `m[id]` used as a condition: a missing key reads as `undefined`, which is falsy. */
  predicate Flag(m: map<int, bool>, id: int) {
    id in m && m[id]
  }

  predicate HasError(f: StreamFlags, id: int) {
    Flag(f.errors, id)
  }

  predicate IsLoading(f: StreamFlags, id: int) {
    Flag(f.loading, id)
  }

  /** What fills the video area of a card. */
  datatype StreamPanel = StreamImage | ConnectingPanel | FailedPanel

  /** The image is rendered only with neither flag set; otherwise a set loading
      flag shows the connecting panel and only then the failed panel with its
      retry button. */
  function PanelFor(f: StreamFlags, id: int): StreamPanel {
    if !HasError(f, id) && !IsLoading(f, id) then StreamImage
    else if IsLoading(f, id) then ConnectingPanel
    else FailedPanel
  }

  /** What the status badge of a card says. */
  datatype StreamStatus = Failed | Connecting | Active

  /** The badge tests the error flag first, then the loading flag. */
  function StatusFor(f: StreamFlags, id: int): StreamStatus {
    if HasError(f, id) then Failed
    else if IsLoading(f, id) then Connecting
    else Active
  }

  function StatusLabel(s: StreamStatus): string {
    match s
    case Failed => "Sin conexión"
    case Connecting => "Conectando…"
    case Active => "Activa"
  }

  /** The three things that can happen to a camera's card. */
  datatype StreamEvent = ImageLoaded(id: int) | ImageFailed(id: int) | RetryClicked(id: int)

  /** The effect of an event's handler on the previous maps: `onLoad` deletes
      the loading key; `onError` sets the error key and deletes the loading
      key; retry deletes the error key and sets the loading key. */
  function Handle(f: StreamFlags, e: StreamEvent): (r: StreamFlags)
    ensures e.ImageLoaded? ==> r.errors == f.errors && r.loading == f.loading - {e.id}
    ensures e.ImageFailed? ==> r.errors == f.errors[e.id := true] && r.loading == f.loading - {e.id}
    ensures e.RetryClicked? ==> r.errors == f.errors - {e.id} && r.loading == f.loading[e.id := true]
    ensures forall other :: other != e.id ==>
              HasError(r, other) == HasError(f, other) && IsLoading(r, other) == IsLoading(f, other)
  {
    match e
    case ImageLoaded(id) => StreamFlags(f.errors, f.loading - {id})
    case ImageFailed(id) => StreamFlags(f.errors[id := true], f.loading - {id})
    case RetryClicked(id) => StreamFlags(f.errors - {id}, f.loading[id := true])
  }

  /** An event reaches its handler only while the element carrying it is
      rendered: load and error belong to the image, retry to the failed panel. */
  predicate Enabled(f: StreamFlags, e: StreamEvent) {
    match e
    case ImageLoaded(id) => PanelFor(f, id) == StreamImage
    case ImageFailed(id) => PanelFor(f, id) == StreamImage
    case RetryClicked(id) => PanelFor(f, id) == FailedPanel
  }

  /** One event as the page experiences it: an event whose element is not
      rendered cannot occur, so it changes nothing. */
  function Step(f: StreamFlags, e: StreamEvent): StreamFlags {
    if Enabled(f, e) then Handle(f, e) else f
  }

  /** A sequence of events, in order. */
  function Run(f: StreamFlags, es: seq<StreamEvent>): StreamFlags
    decreases |es|
  {
    if |es| == 0 then f else Run(Step(f, es[0]), es[1..])
  }

  /** No camera has both flags set. */
  ghost predicate Consistent(f: StreamFlags) {
    forall id :: !(HasError(f, id) && IsLoading(f, id))
  }

  /** Before any event both maps are empty: every camera is active and its
      image is rendered. */
  lemma InitialStreamsActive(id: int)
    ensures PanelFor(StreamFlags(map[], map[]), id) == StreamImage
    ensures StatusFor(StreamFlags(map[], map[]), id) == Active
    ensures Consistent(StreamFlags(map[], map[]))
  {
  }

  /** The image is rendered exactly when the camera has neither flag. */
  lemma ImageIffNoFlags(f: StreamFlags, id: int)
    ensures PanelFor(f, id) == StreamImage <==> !HasError(f, id) && !IsLoading(f, id)
  {
  }

  /** Every handler keeps the two flags of a camera exclusive. */
  lemma HandleKeepsConsistent(f: StreamFlags, e: StreamEvent)
    requires Consistent(f)
    ensures Consistent(Handle(f, e))
  {
    var r := Handle(f, e);
    forall id ensures !(HasError(r, id) && IsLoading(r, id)) {
      if id != e.id {
        assert HasError(r, id) == HasError(f, id) && IsLoading(r, id) == IsLoading(f, id);
      }
    }
  }

  /** Every reachable state keeps the two flags exclusive. */
  lemma {:induction false} RunKeepsConsistent(f: StreamFlags, es: seq<StreamEvent>)
    requires Consistent(f)
    ensures Consistent(Run(f, es))
    decreases |es|
  {
    if |es| > 0 {
      if Enabled(f, es[0]) {
        HandleKeepsConsistent(f, es[0]);
      }
      RunKeepsConsistent(Step(f, es[0]), es[1..]);
    }
  }

  /** With exclusive flags, the panel and the badge tell the same story. */
  lemma PanelAgreesWithStatus(f: StreamFlags, id: int)
    requires Consistent(f)
    ensures PanelFor(f, id) == StreamImage <==> StatusFor(f, id) == Active
    ensures PanelFor(f, id) == ConnectingPanel <==> StatusFor(f, id) == Connecting
    ensures PanelFor(f, id) == FailedPanel <==> StatusFor(f, id) == Failed
    ensures PanelFor(f, id) == StreamImage <==> StatusLabel(StatusFor(f, id)) == "Activa"
    ensures PanelFor(f, id) == ConnectingPanel <==> StatusLabel(StatusFor(f, id)) == "Conectando…"
    ensures PanelFor(f, id) == FailedPanel <==> StatusLabel(StatusFor(f, id)) == "Sin conexión"
  {
    assert !(HasError(f, id) && IsLoading(f, id));
  }

  /** A camera whose loading flag is set shows no image and no retry button,
      so no later event can touch its flags: it stays connecting for ever. */
  lemma {:induction false} LoadingIsStuck(f: StreamFlags, id: int, es: seq<StreamEvent>)
    requires IsLoading(f, id)
    ensures IsLoading(Run(f, es), id)
    ensures HasError(Run(f, es), id) == HasError(f, id)
    ensures PanelFor(Run(f, es), id) == ConnectingPanel
    decreases |es|
  {
    if |es| > 0 {
      var g := Step(f, es[0]);
      assert IsLoading(g, id) && HasError(g, id) == HasError(f, id) by {
        if Enabled(f, es[0]) {
          assert es[0].id != id;
        }
      }
      LoadingIsStuck(g, id, es[1..]);
    }
  }

  /** After a retry the camera is connecting, and stays so whatever happens next. */
  lemma RetryNeverRecovers(f: StreamFlags, id: int, es: seq<StreamEvent>)
    requires Enabled(f, RetryClicked(id))
    ensures StatusFor(Run(Step(f, RetryClicked(id)), es), id) == Connecting
    ensures PanelFor(Run(Step(f, RetryClicked(id)), es), id) == ConnectingPanel
  {
    var g := Step(f, RetryClicked(id));
    assert !HasError(g, id) && IsLoading(g, id);
    LoadingIsStuck(g, id, es);
  }

  /** A rendered stream that fails shows the failed panel with its retry
      button; retrying leads to the connecting state. */
  lemma FailureThenRetry(f: StreamFlags, id: int)
    requires PanelFor(f, id) == StreamImage
    ensures StatusFor(Step(f, ImageFailed(id)), id) == Failed
    ensures PanelFor(Step(f, ImageFailed(id)), id) == FailedPanel
    ensures StatusFor(Step(Step(f, ImageFailed(id)), RetryClicked(id)), id) == Connecting
  {
  }

  /** The page's own state: the two flag maps, updated by the event handlers. */
  class StreamBoard {
    var streamErrors: map<int, bool>
    var streamLoading: map<int, bool>

    function Flags(): StreamFlags
      reads this
    {
      StreamFlags(streamErrors, streamLoading)
    }

    ghost predicate Valid()
      reads this
    {
      Consistent(Flags())
    }

    /** Both maps start empty. */
    constructor ()
      ensures streamErrors == map[] && streamLoading == map[]
      ensures Valid()
    {
      streamErrors := map[];
      streamLoading := map[];
    }

    /** The image's `onLoad`: copy the loading map and delete the camera's key. */
    method OnLoad(id: int)
      requires Valid()
      modifies this
      ensures streamLoading == old(streamLoading) - {id}
      ensures streamErrors == old(streamErrors)
      ensures Flags() == Handle(old(Flags()), ImageLoaded(id))
      ensures Valid()
    {
      HandleKeepsConsistent(Flags(), ImageLoaded(id));
      var copy := streamLoading;
      copy := copy - {id};
      streamLoading := copy;
    }

    /** The image's `onError`: set the camera's error key, then delete its
        loading key. */
    method OnError(id: int)
      requires Valid()
      modifies this
      ensures streamErrors == old(streamErrors)[id := true]
      ensures streamLoading == old(streamLoading) - {id}
      ensures Flags() == Handle(old(Flags()), ImageFailed(id))
      ensures Valid()
    {
      HandleKeepsConsistent(Flags(), ImageFailed(id));
      streamErrors := streamErrors[id := true];
      var copy := streamLoading;
      copy := copy - {id};
      streamLoading := copy;
    }

    /** The retry button: delete the camera's error key, then set its loading key. */
    method Retry(id: int)
      requires Valid()
      modifies this
      ensures streamErrors == old(streamErrors) - {id}
      ensures streamLoading == old(streamLoading)[id := true]
      ensures Flags() == Handle(old(Flags()), RetryClicked(id))
      ensures Valid()
    {
      HandleKeepsConsistent(Flags(), RetryClicked(id));
      var copy := streamErrors;
      copy := copy - {id};
      streamErrors := copy;
      streamLoading := streamLoading[id := true];
    }
  }

  /** The mount effect: a truthy route id starts the stream controller on
      `Number(areaId)`; without one nothing is started. */
  function StartedArea(areaId: Option<string>): (r: Option<JsNumber>)
    ensures r.Some? <==> IsTruthy(areaId)
    ensures r.Some? ==> r.value == ToNumber(areaId)
  {
    if IsTruthy(areaId) then Some(ToNumber(areaId)) else None
  }

  /** A route id that is the decimal text of n starts the streams of area n. */
  lemma StartsDecimalArea(n: int)
    ensures StartedArea(Some(IntToString(n))) == Some(Int(n))
  {
    StringToNumberOfIntToString(n);
  }

  /** A stream descriptor from the stream controller. */
  datatype StreamDescriptor = StreamDescriptor(id_camara: int)

  /** `camaras.find(c => c.id_camara === id)`. */
  function CamaraById(camaras: seq<Camara>, id: int): Option<Camara> {
    Find(camaras, (c: Camara) => c.id_camara == id)
  }

  /** `getNombreCamara`: the name of the first camera with this id, else
      `Cámara #<id>`. */
  function NombreCamara(camaras: seq<Camara>, id: int): (r: string)
    ensures (exists j :: 0 <= j < |camaras| && camaras[j].id_camara == id) ==>
              exists j :: 0 <= j < |camaras| && camaras[j].id_camara == id && r == camaras[j].nombre &&
                          forall i :: 0 <= i < j ==> camaras[i].id_camara != id
    ensures (forall j :: 0 <= j < |camaras| ==> camaras[j].id_camara != id) ==>
              r == "Cámara #" + IntToString(id)
  {
    match CamaraById(camaras, id)
    case Some(c) => c.nombre
    case None => "Cámara #" + IntToString(id)
  }

  /** `camaraInfo?.ip_stream || 'Sin URL'`: a missing camera or an empty URL
      shows the placeholder. */
  function IpText(camaras: seq<Camara>, id: int): (r: string)
    ensures (forall j :: 0 <= j < |camaras| ==> camaras[j].id_camara != id) ==> r == "Sin URL"
    ensures (exists j :: 0 <= j < |camaras| && camaras[j].id_camara == id) ==>
              exists j :: 0 <= j < |camaras| && camaras[j].id_camara == id &&
                          (forall i :: 0 <= i < j ==> camaras[i].id_camara != id) &&
                          r == (if camaras[j].ip_stream != [] then camaras[j].ip_stream else "Sin URL")
    ensures r != []
  {
    match CamaraById(camaras, id)
    case Some(c) => if c.ip_stream != [] then c.ip_stream else "Sin URL"
    case None => "Sin URL"
  }

  /** What one card shows. */
  datatype StreamCard = StreamCard(
    id_camara: int, title: string, panel: StreamPanel, status: StreamStatus, ipText: string)

  /** What the main area of the page shows. */
  datatype MonitoreoScreen =
    | LoadingCameras
    | LoadError(message: string)
    | NoActiveCameras
    | CameraGrid(cards: seq<StreamCard>)

  function CardFor(camaras: seq<Camara>, f: StreamFlags, id: int): StreamCard {
    StreamCard(id, NombreCamara(camaras, id), PanelFor(f, id), StatusFor(f, id), IpText(camaras, id))
  }

  /** The page: the controller's loading flag first, then its error, then an
      empty stream list, else one card per stream in stream order. */
  function Screen(isLoading: bool, error: Option<string>, streams: seq<StreamDescriptor>,
                  camaras: seq<Camara>, f: StreamFlags): (r: MonitoreoScreen)
    ensures isLoading ==> r == LoadingCameras
    ensures !isLoading && IsTruthy(error) ==> r == LoadError(error.value)
    ensures !isLoading && !IsTruthy(error) && |streams| == 0 ==> r == NoActiveCameras
    ensures !isLoading && !IsTruthy(error) && |streams| > 0 ==>
              r.CameraGrid? && |r.cards| == |streams| &&
              forall i :: 0 <= i < |streams| ==>
                r.cards[i].id_camara == streams[i].id_camara &&
                r.cards[i].title == NombreCamara(camaras, streams[i].id_camara) &&
                r.cards[i].panel == PanelFor(f, streams[i].id_camara) &&
                r.cards[i].status == StatusFor(f, streams[i].id_camara) &&
                r.cards[i].ipText == IpText(camaras, streams[i].id_camara)
  {
    if isLoading then LoadingCameras
    else if IsTruthy(error) then LoadError(error.value)
    else if |streams| == 0 then NoActiveCameras
    else CameraGrid(seq(|streams|, i requires 0 <= i < |streams| => CardFor(camaras, f, streams[i].id_camara)))
  }
}
