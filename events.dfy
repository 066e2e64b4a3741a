/**
 * The messages the backend pushes to every websocket client: a type tag and
 * the payload the publisher attached. The millisecond timestamp each event
 * carries is not part of the model.
 */
module Events {
  import Storage
  import Logging

  const Register := "register"
  const Trigger := "trigger"
  const Status := "status"
  const Countdown := "countdown"
  const PhotoReady := "photo_ready"
  const Log := "log"
  const Error := "error"
  const System := "system"
  const UsbExportStart := "usb_export_start"
  const UsbExportProgress := "usb_export_progress"
  const UsbExportSuccess := "usb_export_success"
  const UsbExportError := "usb_export_error"

  /** The Data field of an event, one alternative per shape the publishers use. */
  datatype Payload =
    | NoData
    | StateData(state: string)
    | CountdownData(remaining: int, total: int)
    | PhotoData(photo: Storage.Photo)
    | MessageData(message: string)
    | LogData(entry: Logging.Entry)
    | AlbumData(album: string)
    | ProgressData(album: string, copiedBytes: int, totalBytes: int, copiedFiles: int, totalFiles: int, etaSeconds: int)
    | ExportDoneData(album: string, path: string)
    | SystemData

  datatype Event = Event(kind: string, data: Payload)

  function StatusEvent(state: string): Event
  {
    Event(Status, StateData(state))
  }

  function CountdownEvent(remaining: int, total: int): Event
  {
    Event(Countdown, CountdownData(remaining, total))
  }

  function ErrorEvent(message: string): Event
  {
    Event(Error, MessageData(message))
  }

  /** What the logger's broadcast function publishes for one entry. */
  function LogEvent(entry: Logging.Entry): Event
  {
    Event(Log, LogData(entry))
  }
}
