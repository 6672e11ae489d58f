/** The supervisor's main screen: the QR scan of an event code, the flags that keep one scan from
    being handled twice, and the search over the sample event list. */
module Checador {
  import opened Common
  import opened Text

  /** An event as the list shows it (the image link is not modelled). */
  datatype Event = Event(id: string, titulo: string, fecha: string)

  /** The sample events the search filters. */
  const EventosData: seq<Event> := [
    Event("1", "Festival Gamer", "15 de Abril, 2025"),
    Event("2", "Competencia de Natación", "22 de Abril, 2025"),
    Event("3", "Aventura Espacial", "30 de Abril, 2025")]

  const EventPrefix := "evento-"

  /** What a scanned code is taken to be. */
  datatype Scan = EventCode(id: string) | InvalidCode

  /** The decision of `handleBarCodeScanned`: a code starting with "evento-" names the event in
      its second '-'-separated field; any other code is invalid. */
  function ParseScan(data: string): (r: Scan)
    ensures r.EventCode? <==> EventPrefix <= data
  {
    if EventPrefix <= data then
      assert data[6] == '-';
      SplitHead(data, '-');
      EventCode(Split(data, '-')[1])
    else InvalidCode
  }

  /** The id read from an event code is the text after "evento-" up to the next '-' or the end:
      it never holds a '-'. */
  lemma EventIdIsSecondField(data: string)
    requires EventPrefix <= data
    ensures var id := ParseScan(data).id;
            '-' !in id && EventPrefix + id <= data &&
            (|data| == |EventPrefix| + |id| || data[|EventPrefix| + |id|] == '-')
  {
    var rest := data[7..];
    EventIdIsFirstPieceOfRest(data);
    FirstPieceShape(rest);
    var id := Split(rest, '-')[0];
    assert data == EventPrefix + rest;
    assert EventPrefix + id == data[..7 + |id|];
  }

  /** The first '-'-piece of a text is a '-'-free prefix of it, followed by '-' or the end. */
  lemma FirstPieceShape(rest: string)
    ensures var id := Split(rest, '-')[0];
            '-' !in id && id <= rest && (|rest| == |id| || rest[|id|] == '-')
  {
    SplitHead(rest, '-');
  }

  /** The id is the first '-'-piece of what follows the prefix. */
  lemma EventIdIsFirstPieceOfRest(data: string)
    requires EventPrefix <= data
    ensures ParseScan(data).id == Split(data[|EventPrefix|..], '-')[0]
  {
    var rest := data[7..];
    assert forall k :: 0 <= k < 7 ==> data[k] == EventPrefix[k];
    IndexOfIs(data, '-', 6);
    assert Split(data, '-') == [data[..6]] + Split(rest, '-');
  }

  /** A search keeps every copy of a selected event and drops every copy of the others. */
  lemma FilterEventsCounts(texto: string, e: Event)
    requires texto != ""
    ensures multiset(FilterEvents(texto))[e] == if ContainsIgnoringCase(e.titulo, texto) then multiset(EventosData)[e] else 0
  {
    var keep := (x: Event) => ContainsIgnoringCase(x.titulo, texto);
    FilterCounts(EventosData, keep);
    assert FilterEvents(texto) == Filter(EventosData, keep);
  }

  /** `filtrarEventos`: the sample events whose title holds the text, ignoring case; all of them
      for empty text. */
  function FilterEvents(texto: string): (r: seq<Event>)
    ensures texto == "" ==> r == EventosData
    ensures texto != "" ==> forall e :: e in r <==> e in EventosData && ContainsIgnoringCase(e.titulo, texto)
    ensures IsSubsequence(r, EventosData)
  {
    if texto != "" then Filter(EventosData, (e: Event) => ContainsIgnoringCase(e.titulo, texto))
    else
      FilterKeepsAll(EventosData, (e: Event) => true);
      EventosData
  }

  /** The screen's state cells. */
  class Scanner {
    var busqueda: string
    var eventosFiltrados: seq<Event>
    var cameraVisible: bool
    var scanned: bool

    constructor ()
      ensures busqueda == "" && eventosFiltrados == EventosData && !cameraVisible && !scanned
    {
      busqueda := "";
      eventosFiltrados := EventosData;
      cameraVisible := false;
      scanned := false;
    }

    /** The load effect: the supervisor's events replace the list (a missing list empties it);
        a failed request changes nothing. */
    method LoadEvents(reply: Reply<Option<seq<Event>>>)
      modifies this
      ensures reply.Ok? ==> eventosFiltrados == (if reply.data.Some? then reply.data.value else [])
      ensures !reply.Ok? ==> eventosFiltrados == old(eventosFiltrados)
      ensures busqueda == old(busqueda) && cameraVisible == old(cameraVisible) && scanned == old(scanned)
    {
      if reply.Ok? {
        eventosFiltrados := if reply.data.Some? then reply.data.value else [];
      }
    }

    /** `abrirCamara`. */
    method OpenCamera()
      modifies this
      ensures cameraVisible && scanned == old(scanned)
      ensures busqueda == old(busqueda) && eventosFiltrados == old(eventosFiltrados)
    {
      cameraVisible := true;
    }

    /** The close button of the camera modal. */
    method CloseCamera()
      modifies this
      ensures !cameraVisible && scanned == old(scanned)
      ensures busqueda == old(busqueda) && eventosFiltrados == old(eventosFiltrados)
    {
      cameraVisible := false;
    }

    /** `handleBarCodeScanned`: every scan latches `scanned` and closes the camera, then reports
        the event code or an invalid code. */
    method HandleScan(data: string) returns (r: Scan)
      modifies this
      ensures scanned && !cameraVisible && r == ParseScan(data)
      ensures busqueda == old(busqueda) && eventosFiltrados == old(eventosFiltrados)
    {
      scanned := true;
      cameraVisible := false;
      r := ParseScan(data);
    }

    /** A code the camera reads: the handler is attached only while no scan is latched, so a read
        during a latched scan does nothing. */
    method CameraReads(data: string) returns (r: Option<Scan>)
      modifies this
      ensures old(scanned) ==> r == None && scanned && cameraVisible == old(cameraVisible)
      ensures !old(scanned) ==> r == Some(ParseScan(data)) && scanned && !cameraVisible
      ensures busqueda == old(busqueda) && eventosFiltrados == old(eventosFiltrados)
    {
      if scanned {
        return None;
      }
      var s := HandleScan(data);
      r := Some(s);
    }

    /** The OK button of either alert: the latch is released. */
    method Acknowledge()
      modifies this
      ensures !scanned && cameraVisible == old(cameraVisible)
      ensures busqueda == old(busqueda) && eventosFiltrados == old(eventosFiltrados)
    {
      scanned := false;
    }

    /** `filtrarEventos(texto)`: the search runs over the sample events, whatever the load put in
        the list. */
    method Search(texto: string)
      modifies this
      ensures busqueda == texto && eventosFiltrados == FilterEvents(texto)
      ensures cameraVisible == old(cameraVisible) && scanned == old(scanned)
    {
      busqueda := texto;
      eventosFiltrados := FilterEvents(texto);
    }
  }
}
