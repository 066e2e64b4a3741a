/**
 * The frontend's photobooth store: the state it mirrors from the backend's
 * websocket events, its bounded log list, and the trigger it sends. Events
 * arrive already parsed into the backend's own Event shape; a payload
 * without the shape its type calls for is ignored.
 */
module PhotoboothStore {
  import opened Wrappers
  import Events
  import Storage
  import Logging
  import Websocket
  import App

  const MaxLogs := 200

  /** The store's usbExport object. */
  datatype ExportView = ExportView(
    active: bool, album: string,
    copiedBytes: int, totalBytes: int, copiedFiles: int, totalFiles: int, etaSeconds: int,
    error: Option<string>)

  function IdleExport(): ExportView {
    ExportView(false, "", 0, 0, 0, 0, 0, None)
  }

  /** The fields handleMessage can change. */
  datatype StoreView = StoreView(
    state: string,
    countdown: (int, int),
    lastPhoto: Option<Storage.Photo>,
    error: Option<string>,
    logs: seq<Logging.Entry>,
    usbExport: ExportView)

  /** addLog: the entry goes last, and only the newest MaxLogs entries are kept. */
  function AfterAddLog(logs: seq<Logging.Entry>, entry: Logging.Entry): (r: seq<Logging.Entry>)
    ensures |r| == if |logs| + 1 > MaxLogs then MaxLogs else |logs| + 1
    ensures r[|r| - 1] == entry
    ensures r == (logs + [entry])[|logs| + 1 - |r|..]
  {
    var all := logs + [entry];
    if |all| > MaxLogs then all[|all| - MaxLogs..] else all
  }

  /** A list below the cap just grows by the entry. */
  lemma AddLogBelowCap(logs: seq<Logging.Entry>, entry: Logging.Entry)
    requires |logs| < MaxLogs
    ensures AfterAddLog(logs, entry) == logs + [entry]
  {
  }

  /** At the cap the oldest entry goes and the rest move up by one. */
  lemma AddLogAtCap(logs: seq<Logging.Entry>, entry: Logging.Entry)
    requires |logs| == MaxLogs
    ensures AfterAddLog(logs, entry) == logs[1..] + [entry]
  {
    var r := AfterAddLog(logs, entry);
    assert r == (logs + [entry])[1..];
  }

  /** The message types the store acts on. */
  predicate Handled(kind: string) {
    kind in {"status", "countdown", "capturing", "processing", "photo_ready", "system_info", "error", "log",
             "usb_export_start", "usb_export_progress", "usb_export_success", "usb_export_error"}
  }

  /** handleMessage on the store's fields. */
  function Reduce(v: StoreView, m: Events.Event): StoreView {
    var d := m.data;
    if m.kind == "status" then
      if d.StateData? then v.(state := d.state) else v
    else if m.kind == "countdown" then
      if d.CountdownData? then v.(countdown := (d.remaining, d.total), state := "countdown") else v
    else if m.kind == "capturing" then v.(state := "capturing")
    else if m.kind == "processing" then v.(state := "processing")
    else if m.kind == "photo_ready" then
      if d.PhotoData? then v.(lastPhoto := Some(d.photo), state := "preview") else v
    else if m.kind == "error" then
      if d.MessageData? then v.(error := Some(d.message), state := "error") else v
    else if m.kind == "log" then
      if d.LogData? then v.(logs := AfterAddLog(v.logs, d.entry)) else v
    else if m.kind == "usb_export_start" then
      if d.AlbumData? then v.(usbExport := ExportView(true, d.album, 0, 0, 0, 0, 0, None)) else v
    else if m.kind == "usb_export_progress" then
      if d.ProgressData? then
        v.(usbExport := ExportView(true, d.album, d.copiedBytes, d.totalBytes, d.copiedFiles, d.totalFiles, d.etaSeconds, None))
      else v
    else if m.kind == "usb_export_success" then v.(usbExport := v.usbExport.(copiedBytes := v.usbExport.totalBytes))
    else if m.kind == "usb_export_error" then
      if d.MessageData? then v.(usbExport := v.usbExport.(error := Some(d.message))) else v
    else v
  }

  /** An entry the backend's logger broadcasts lands in the store's log list, and nothing else changes. */
  lemma LoggedEntryReachesStore(v: StoreView, entry: Logging.Entry)
    ensures Reduce(v, Events.LogEvent(entry)) == v.(logs := AfterAddLog(v.logs, entry))
  {
  }

  /** A type the store does not know changes nothing; system_info's camera and disk fields are not part of the view. */
  lemma UnhandledChangesNothing(v: StoreView, m: Events.Event)
    requires !Handled(m.kind) || m.kind == "system_info"
    ensures Reduce(v, m) == v
  {
  }

  /** The backend's periodic "system" event is one of them: the store only knows "system_info". */
  lemma SystemEventIgnored(v: StoreView)
    ensures Reduce(v, Events.Event(Events.System, Events.SystemData)) == v
  {
    assert !Handled(Events.System) by {
      assert Events.System != "system_info" by { assert |Events.System| != |"system_info"|; }
    }
    UnhandledChangesNothing(v, Events.Event(Events.System, Events.SystemData));
  }

  /** What each backend event does to the mirrored state, photo and message. */
  lemma ReduceBackendEvents(v: StoreView, state: string, remaining: int, total: int, photo: Storage.Photo, message: string)
    ensures Reduce(v, Events.StatusEvent(state)) == v.(state := state)
    ensures Reduce(v, Events.CountdownEvent(remaining, total)) == v.(countdown := (remaining, total), state := "countdown")
    ensures Reduce(v, Events.Event(Events.PhotoReady, Events.PhotoData(photo))) == v.(lastPhoto := Some(photo), state := "preview")
    ensures Reduce(v, Events.ErrorEvent(message)) == v.(error := Some(message), state := "error")
  {
  }

  /** The export progress view across an export's events. */
  lemma ReduceExportEvents(v: StoreView, album: string, cb: int, tb: int, cf: int, tf: int, eta: int, message: string)
    ensures Reduce(v, Events.Event(Events.UsbExportStart, Events.AlbumData(album))).usbExport == ExportView(true, album, 0, 0, 0, 0, 0, None)
    ensures Reduce(v, Events.Event(Events.UsbExportProgress, Events.ProgressData(album, cb, tb, cf, tf, eta))).usbExport
      == ExportView(true, album, cb, tb, cf, tf, eta, None)
    ensures var r := Reduce(v, Events.Event(Events.UsbExportSuccess, Events.ExportDoneData(album, message))).usbExport;
      r == v.usbExport.(copiedBytes := v.usbExport.totalBytes)
    ensures Reduce(v, Events.Event(Events.UsbExportError, Events.MessageData(message))).usbExport == v.usbExport.(error := Some(message))
  {
  }

  /** The store after a sequence of events, in order. */
  function ReduceAll(v: StoreView, es: seq<Events.Event>): StoreView {
    if es == [] then v else Reduce(ReduceAll(v, es[..|es| - 1]), es[|es| - 1])
  }

  lemma ReduceAllSnoc(v: StoreView, es: seq<Events.Event>, e: Events.Event)
    ensures ReduceAll(v, es + [e]) == Reduce(ReduceAll(v, es), e)
  {
    assert (es + [e])[..|es|] == es;
  }

  lemma {:induction false} ReduceAllConcat(v: StoreView, a: seq<Events.Event>, b: seq<Events.Event>)
    ensures ReduceAll(v, a + b) == ReduceAll(ReduceAll(v, a), b)
    decreases |b|
  {
    if b != [] {
      var b0, e := b[..|b| - 1], b[|b| - 1];
      assert b == b0 + [e];
      assert a + b == (a + b0) + [e];
      ReduceAllSnoc(v, a + b0, e);
      ReduceAllSnoc(ReduceAll(v, a), b0, e);
      ReduceAllConcat(v, a, b0);
    } else {
      assert a + b == a;
    }
  }

  /** After a non-empty countdown the store shows its last tick. */
  lemma CountdownTicksShown(v: StoreView, total: nat, i: nat)
    requires i < total
    ensures ReduceAll(v, App.CountdownTicks(total, i)).countdown == (i + 1, total)
    ensures ReduceAll(v, App.CountdownTicks(total, i)).state == "countdown"
  {
    var es := App.CountdownTicks(total, i);
    assert es[..|es| - 1] == App.CountdownTicks(total, i + 1);
  }

  /** The events of a run after its countdown ticks, as App.HappyPath emits them. */
  function RunTail(seconds: nat, photo: Storage.Photo): seq<Events.Event> {
    [Events.CountdownEvent(0, seconds), App.StatusOf(App.Capturing), App.StatusOf(App.Processing), App.StatusOf(App.Preview),
     Events.Event(Events.PhotoReady, Events.PhotoData(photo)), App.StatusOf(App.Idle)]
  }

  /** The countdown status and the ticks leave the photo, message, logs and export view alone. */
  lemma HeadKeepsRest(v: StoreView, seconds: nat)
    ensures var r := ReduceAll(v, [App.StatusOf(App.Countdown)] + App.CountdownTicks(seconds, 0));
      r.logs == v.logs && r.usbExport == v.usbExport && r.error == v.error && r.lastPhoto == v.lastPhoto
  {
    var p1 := [App.StatusOf(App.Countdown)];
    ReduceAllSnoc(v, [], App.StatusOf(App.Countdown));
    assert [] + p1 == p1;
    var w1 := ReduceAll(v, p1);
    assert w1 == v.(state := "countdown");
    ReduceAllConcat(v, p1, App.CountdownTicks(seconds, 0));
    TicksKeepRest(w1, seconds, 0);
  }

  /** The rest of the run ends idle with the zero tick and the photo shown. */
  lemma TailEffect(w: StoreView, seconds: nat, photo: Storage.Photo)
    ensures var r := ReduceAll(w, RunTail(seconds, photo));
      r.state == "idle" && r.lastPhoto == Some(photo) && r.countdown == (0, seconds)
      && r.logs == w.logs && r.usbExport == w.usbExport && r.error == w.error
  {
    var es := RunTail(seconds, photo);
    var w1 := Reduce(w, es[0]);
    assert ReduceAll(w, es[..1]) == w1 by {
      ReduceAllSnoc(w, [], es[0]);
      assert [] + [es[0]] == es[..1];
    }
    var w2 := Reduce(w1, es[1]);
    assert ReduceAll(w, es[..2]) == w2 by { ReduceAllSnoc(w, es[..1], es[1]); assert es[..1] + [es[1]] == es[..2]; }
    var w3 := Reduce(w2, es[2]);
    assert ReduceAll(w, es[..3]) == w3 by { ReduceAllSnoc(w, es[..2], es[2]); assert es[..2] + [es[2]] == es[..3]; }
    var w4 := Reduce(w3, es[3]);
    assert ReduceAll(w, es[..4]) == w4 by { ReduceAllSnoc(w, es[..3], es[3]); assert es[..3] + [es[3]] == es[..4]; }
    var w5 := Reduce(w4, es[4]);
    assert ReduceAll(w, es[..5]) == w5 by { ReduceAllSnoc(w, es[..4], es[4]); assert es[..4] + [es[4]] == es[..5]; }
    var w6 := Reduce(w5, es[5]);
    assert ReduceAll(w, es) == w6 by { ReduceAllSnoc(w, es[..5], es[5]); assert es[..5] + [es[5]] == es; }
    assert w1.countdown == (0, seconds) && w1.lastPhoto == w.lastPhoto;
    assert w5.lastPhoto == Some(photo) && w5.countdown == (0, seconds);
  }

  /**
   * A client that sees every event of an uninterrupted capture run ends
   * idle, showing the run's photo and the zero tick of its countdown, with
   * its logs, message and export view as before.
   */
  lemma MirrorsHappyPath(v: StoreView, seconds: nat, photo: Storage.Photo)
    ensures var r := ReduceAll(v, [App.StatusOf(App.Countdown)] + App.CountdownTicks(seconds, 0) + RunTail(seconds, photo));
      r.state == "idle" && r.lastPhoto == Some(photo) && r.countdown == (0, seconds)
      && r.logs == v.logs && r.usbExport == v.usbExport && r.error == v.error
  {
    var head := [App.StatusOf(App.Countdown)] + App.CountdownTicks(seconds, 0);
    ReduceAllConcat(v, head, RunTail(seconds, photo));
    HeadKeepsRest(v, seconds);
    TailEffect(ReduceAll(v, head), seconds, photo);
  }

  /** The countdown ticks touch only the countdown and the state. */
  lemma {:induction false} TicksKeepRest(v: StoreView, total: nat, i: nat)
    ensures var r := ReduceAll(v, App.CountdownTicks(total, i));
      r.logs == v.logs && r.usbExport == v.usbExport && r.error == v.error && r.lastPhoto == v.lastPhoto
    decreases total - i
  {
    if i < total {
      var es := App.CountdownTicks(total, i);
      assert es[..|es| - 1] == App.CountdownTicks(total, i + 1);
      TicksKeepRest(v, total, i + 1);
    }
  }

  /** After a capture error the client is idle again but still holds the message until its timer clears it. */
  lemma MirrorsErrorPath(v: StoreView, message: string)
    ensures var r := ReduceAll(v, [App.StatusOf(App.Error), Events.ErrorEvent(message), App.StatusOf(App.Idle)]);
      r.state == "idle" && r.error == Some(message) && r.lastPhoto == v.lastPhoto
  {
    var e1, e2, e3 := App.StatusOf(App.Error), Events.ErrorEvent(message), App.StatusOf(App.Idle);
    ReduceAllSnoc(v, [], e1);
    assert [] + [e1] == [e1];
    var w1 := ReduceAll(v, [e1]);
    assert w1 == v.(state := "error");
    ReduceAllSnoc(v, [e1], e2);
    assert [e1] + [e2] == [e1, e2];
    var w2 := ReduceAll(v, [e1, e2]);
    assert w2 == w1.(error := Some(message), state := "error");
    ReduceAllSnoc(v, [e1, e2], e3);
    assert [e1, e2] + [e3] == [e1, e2, e3];
    assert ReduceAll(v, [e1, e2, e3]) == w2.(state := "idle");
  }

  /** The message trigger() sends: {"type": "trigger"}. */
  function TriggerMessage(): Websocket.Json {
    Websocket.JObject(map["type" := Websocket.JString("trigger")])
  }

  /** The backend's read loop takes it for a trigger. */
  lemma TriggerMessageTriggers()
    ensures Websocket.Dispatch(Some(TriggerMessage())) == Websocket.CallTrigger
  {
    assert Websocket.MessageType(TriggerMessage()) == "trigger";
  }

  /** The socket's readyState, when there is a socket. */
  datatype ReadyState = Connecting | Open | Closing | Closed

  class Store {
    var state: string
    var countdown: (int, int)
    var lastPhoto: Option<Storage.Photo>
    var error: Option<string>
    var logs: seq<Logging.Entry>
    var usbExport: ExportView
    var socket: Option<ReadyState>
    /** Every message sent on the socket, in order. */
    ghost var sent: seq<Websocket.Json>

    function View(): StoreView
      reads this
    {
      StoreView(state, countdown, lastPhoto, error, logs, usbExport)
    }

    /** The store's initial values, before any socket exists. */
    constructor ()
      ensures View() == StoreView("idle", (0, 0), None, None, [], IdleExport()) && socket.None? && sent == []
    {
      state := "idle";
      countdown := (0, 0);
      lastPhoto := None;
      error := None;
      logs := [];
      usbExport := IdleExport();
      socket := None;
      sent := [];
    }

    method AddLog(entry: Logging.Entry)
      modifies this`logs
      ensures logs == AfterAddLog(old(logs), entry)
    {
      logs := logs + [entry];
      if |logs| > MaxLogs {
        logs := logs[|logs| - MaxLogs..];
      }
    }

    method HandleMessage(m: Events.Event)
      modifies this`state, this`countdown, this`lastPhoto, this`error, this`logs, this`usbExport
      ensures View() == Reduce(old(View()), m)
    {
      var d := m.data;
      if m.kind == "status" {
        if d.StateData? {
          state := d.state;
        }
      } else if m.kind == "countdown" {
        if d.CountdownData? {
          countdown := (d.remaining, d.total);
          state := "countdown";
        }
      } else if m.kind == "capturing" {
        state := "capturing";
      } else if m.kind == "processing" {
        state := "processing";
      } else if m.kind == "photo_ready" {
        if d.PhotoData? {
          lastPhoto := Some(d.photo);
          state := "preview";
        }
      } else if m.kind == "system_info" {
      } else if m.kind == "error" {
        if d.MessageData? {
          error := Some(d.message);
          state := "error";
        }
      } else if m.kind == "log" {
        if d.LogData? {
          AddLog(d.entry);
        }
      } else if m.kind == "usb_export_start" {
        if d.AlbumData? {
          usbExport := ExportView(true, d.album, 0, 0, 0, 0, 0, None);
        }
      } else if m.kind == "usb_export_progress" {
        if d.ProgressData? {
          usbExport := ExportView(true, d.album, d.copiedBytes, d.totalBytes, d.copiedFiles, d.totalFiles, d.etaSeconds, None);
        }
      } else if m.kind == "usb_export_success" {
        usbExport := usbExport.(copiedBytes := usbExport.totalBytes);
      } else if m.kind == "usb_export_error" {
        if d.MessageData? {
          usbExport := usbExport.(error := Some(d.message));
        }
      }
    }

    /** The five-second timer an error message starts: the message is cleared. */
    method ErrorTimerFired()
      modifies this`error
      ensures error.None?
    {
      error := None;
    }

    /** The timer after a successful export: the progress view closes. */
    method ExportSuccessTimerFired()
      modifies this`usbExport
      ensures usbExport == old(usbExport).(active := false)
    {
      usbExport := usbExport.(active := false);
    }

    /** The timer after a failed export: the view closes and the error goes. */
    method ExportErrorTimerFired()
      modifies this`usbExport
      ensures usbExport == old(usbExport).(active := false, error := None)
    {
      usbExport := usbExport.(active := false, error := None);
    }

    /** trigger: sends only over an existing, open socket. */
    method Trigger()
      modifies this`sent
      ensures socket == Some(Open) ==> sent == old(sent) + [TriggerMessage()]
      ensures socket != Some(Open) ==> sent == old(sent)
    {
      if socket.None? || socket.value != Open {
        return;
      }
      sent := sent + [TriggerMessage()];
    }
  }
}
