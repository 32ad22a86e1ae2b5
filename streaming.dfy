/** Model of the video-stream widget: a Start and a Stop button, an
    auto-start checkbox, the video element's events, a periodic status check
    and the status indicator.

    The widget's own state is the flag `isStreaming`. What the page shows
    is a `UI` record; a button missing from the page is a `const` flag, and
    so are the video element, the checkbox and the `.control-buttons`
    container the status indicator is added to. Whether a `#streamStatus`
    indicator is on the page is state: the first update adds one to that
    container when there is none. The video element's
    `readyState` and `error`, and the checkbox's `checked`, are inputs of the
    operations that read them. */
module Streaming {

  /** The address the video element is pointed at on start. */
  const STREAM_URL: string := "/stream/"

  /** `HTMLMediaElement.HAVE_CURRENT_DATA`: the least `readyState` at which
      the stream counts as playing. */
  const HAVE_CURRENT_DATA: int := 2

  /** The statuses the widget displays. */
  const Statuses: set<string> := {"stopped", "starting", "streaming", "error"}

  /** An entry of the status table: the indicator's text and class. */
  datatype Config = Config(text: string, cls: string)

  /** What the page shows: the two buttons' `disabled` flags, whether the
      Start button shows the spinner ("Iniciando...") rather than the play
      icon, and the `#streamStatus` indicator's text and `className` (only
      meaningful while an indicator is on the page). */
  datatype UI = UI(startDisabled: bool, startSpinner: bool, stopDisabled: bool,
                   statusText: string, statusClass: string)

  /** The status table, keyed by status. */
  const StatusTable: map<string, Config> := map[
    "stopped" := Config("Stream Parado", "status-offline"),
    "starting" := Config("Iniciando...", "status-offline"),
    "streaming" := Config("Stream Ativo", "status-online"),
    "error" := Config("Erro no Stream", "status-offline")
  ]

  /** The entry for `status`, or the entry for "stopped" when the table has
      none. Only "streaming" is shown online. */
  function StatusConfig(status: string): (c: Config)
    ensures status !in Statuses ==> c == Config("Stream Parado", "status-offline")
    ensures c.cls == "status-online" <==> status == "streaming"
    ensures c.cls in {"status-online", "status-offline"}
  {
    if status in StatusTable then StatusTable[status] else StatusTable["stopped"]
  }

  /** Start is disabled while starting or streaming. */
  predicate StartDisabled(status: string)
  {
    status == "starting" || status == "streaming"
  }

  /** Stop is disabled while stopped or starting. */
  predicate StopDisabled(status: string)
  {
    status == "stopped" || status == "starting"
  }

  /** Only "starting" disables both buttons, "error" (like any status
      outside the table) disables neither, and exactly one of them is enabled
      while stopped or streaming. */
  lemma ButtonRules(status: string)
    ensures StartDisabled(status) && StopDisabled(status) <==> status == "starting"
    ensures !StartDisabled(status) && !StopDisabled(status) <==> status !in {"stopped", "starting", "streaming"}
    ensures status == "stopped" ==> !StartDisabled(status) && StopDisabled(status)
    ensures status == "streaming" ==> StartDisabled(status) && !StopDisabled(status)
  {
  }

  class Widget {
    const hasStartBtn: bool
    const hasStopBtn: bool
    const hasVideo: bool
    const hasAutoStart: bool
    /** The page has a `.control-buttons` container. */
    const hasControls: bool

    var isStreaming: bool
    /** A `#streamStatus` indicator is on the page. */
    var indicatorAttached: bool
    var ui: UI
    /** The video element's `src`. */
    var videoSrc: string

    constructor (hasStartBtn: bool, hasStopBtn: bool, hasVideo: bool, hasAutoStart: bool,
                 hasControls: bool, hasIndicator: bool, served: UI, servedSrc: string)
      ensures this.hasStartBtn == hasStartBtn && this.hasStopBtn == hasStopBtn
      ensures this.hasVideo == hasVideo && this.hasAutoStart == hasAutoStart
      ensures this.hasControls == hasControls && indicatorAttached == hasIndicator
      ensures !isStreaming && ui == served && videoSrc == servedSrc
    {
      this.hasStartBtn := hasStartBtn;
      this.hasStopBtn := hasStopBtn;
      this.hasVideo := hasVideo;
      this.hasAutoStart := hasAutoStart;
      this.hasControls := hasControls;
      indicatorAttached := hasIndicator;
      isStreaming := false;
      ui := served;
      videoSrc := servedSrc;
    }

    /** The page shows `status`: the buttons that exist follow the button
        rules, and the indicator, once on the page, shows the status table's
        entry. */
    twostate predicate Shows(status: string)
      reads this
    {
      && IndicatorShows(status)
      && ui.startDisabled == (if hasStartBtn then StartDisabled(status) else old(ui.startDisabled))
      && ui.startSpinner == (if hasStartBtn then status == "starting" else old(ui.startSpinner))
      && ui.stopDisabled == (if hasStopBtn then StopDisabled(status) else old(ui.stopDisabled))
    }

    /** The indicator after an update for `status`: a missing one has been
        added when the container exists, and an indicator on the page shows
        the table's entry; without one the text and class stay as they were. */
    twostate predicate IndicatorShows(status: string)
      reads this
    {
      && indicatorAttached == (old(indicatorAttached) || hasControls)
      && ui.statusText == (if indicatorAttached then StatusConfig(status).text else old(ui.statusText))
      && ui.statusClass == (if indicatorAttached then "status-indicator " + StatusConfig(status).cls
                            else old(ui.statusClass))
    }

    /** Writes the status table's entry for `status` into the indicator. When
        the page has none, a new one is made and added to the controls
        container; without that container the new element stays off the page
        and the page shows no indicator. */
    method UpdateStatusIndicator(status: string)
      modifies this`ui, this`indicatorAttached
      ensures IndicatorShows(status)
      ensures ui.startDisabled == old(ui.startDisabled) && ui.startSpinner == old(ui.startSpinner)
      ensures ui.stopDisabled == old(ui.stopDisabled)
    {
      if !indicatorAttached && hasControls {
        indicatorAttached := true;
      }
      if indicatorAttached {
        var config := StatusConfig(status);
        ui := ui.(statusClass := "status-indicator " + config.cls, statusText := config.text);
      }
    }

    /** Sets both buttons and the indicator for `status`. */
    method UpdateUI(status: string)
      modifies this`ui, this`indicatorAttached
      ensures Shows(status)
    {
      if hasStartBtn {
        ui := ui.(startDisabled := status == "starting" || status == "streaming",
                  startSpinner := status == "starting");
      }
      if hasStopBtn {
        ui := ui.(stopDisabled := status == "stopped" || status == "starting");
      }
      UpdateStatusIndicator(status);
    }

    /** Starts the stream unless it is already on: sets the flag, shows
        "starting" and points the video at the stream. */
    method StartStream()
      modifies this`isStreaming, this`ui, this`indicatorAttached, this`videoSrc
      ensures old(isStreaming) ==> unchanged(this)
      ensures !old(isStreaming) ==> isStreaming && Shows("starting")
      ensures !old(isStreaming) ==> videoSrc == if hasVideo then STREAM_URL else old(videoSrc)
    {
      if isStreaming {
        return;
      }
      isStreaming := true;
      UpdateUI("starting");
      if hasVideo {
        videoSrc := STREAM_URL;
      }
    }

    /** Stops the stream if it is on: clears the flag, detaches the video
        and shows "stopped". */
    method StopStream()
      modifies this`isStreaming, this`ui, this`indicatorAttached, this`videoSrc
      ensures !old(isStreaming) ==> unchanged(this)
      ensures old(isStreaming) ==> !isStreaming && Shows("stopped")
      ensures old(isStreaming) ==> videoSrc == if hasVideo then "" else old(videoSrc)
    {
      if !isStreaming {
        return;
      }
      isStreaming := false;
      if hasVideo {
        videoSrc := "";
      }
      UpdateUI("stopped");
    }

    /** The periodic check, while streaming: enough data shows "streaming"
        even if the element also reports an error; an error alone shows
        "error"; otherwise nothing changes. The flag never changes. */
    method CheckStreamStatus(readyState: int, videoError: bool)
      modifies this`ui, this`indicatorAttached
      ensures !isStreaming || !hasVideo ==> unchanged(this)
      ensures isStreaming && hasVideo && readyState >= HAVE_CURRENT_DATA ==> Shows("streaming")
      ensures isStreaming && hasVideo && readyState < HAVE_CURRENT_DATA && videoError ==> Shows("error")
      ensures isStreaming && hasVideo && readyState < HAVE_CURRENT_DATA && !videoError ==> unchanged(this)
    {
      if !isStreaming || !hasVideo {
        return;
      }
      if readyState >= HAVE_CURRENT_DATA {
        UpdateUI("streaming");
      } else if videoError {
        UpdateUI("error");
      }
    }

    /** The video's `loadstart` event: shows "starting". */
    method HandleVideoLoadStart()
      modifies this`ui, this`indicatorAttached
      ensures Shows("starting")
    {
      UpdateUI("starting");
    }

    /** The video's `canplay` event: shows "streaming" (and asks the video
        to play). */
    method HandleVideoCanPlay()
      modifies this`ui, this`indicatorAttached
      ensures Shows("streaming")
    {
      UpdateUI("streaming");
    }

    /** The video's `error` event: shows "error" and clears the flag. */
    method HandleVideoError()
      modifies this`ui, this`indicatorAttached, this`isStreaming
      ensures Shows("error") && !isStreaming
    {
      UpdateUI("error");
      isStreaming := false;
    }

    /** The video's `ended` event: shows "stopped" and clears the flag. */
    method HandleVideoEnded()
      modifies this`ui, this`indicatorAttached, this`isStreaming
      ensures Shows("stopped") && !isStreaming
    {
      UpdateUI("stopped");
      isStreaming := false;
    }

    /** The checkbox's `change` event: checking it starts a stopped stream,
        clearing it stops a running one, anything else does nothing. Without
        the checkbox the handler fails before changing anything. */
    method HandleAutoStart(checked: bool)
      modifies this`isStreaming, this`ui, this`indicatorAttached, this`videoSrc
      ensures hasAutoStart && checked && !old(isStreaming) ==>
        isStreaming && Shows("starting") && videoSrc == (if hasVideo then STREAM_URL else old(videoSrc))
      ensures hasAutoStart && !checked && old(isStreaming) ==>
        !isStreaming && Shows("stopped") && videoSrc == (if hasVideo then "" else old(videoSrc))
      ensures !hasAutoStart || checked == old(isStreaming) ==> unchanged(this)
    {
      if hasAutoStart && checked && !isStreaming {
        StartStream();
      } else if hasAutoStart && !checked && isStreaming {
        StopStream();
      }
    }

    /** Page start-up: with a video element, a checked auto-start box starts
        the stream; without one nothing is wired and nothing changes. */
    method Init(checked: bool)
      modifies this`isStreaming, this`ui, this`indicatorAttached, this`videoSrc
      ensures hasVideo && hasAutoStart && checked && !old(isStreaming) ==>
        isStreaming && Shows("starting") && videoSrc == STREAM_URL
      ensures !(hasVideo && hasAutoStart && checked && !old(isStreaming)) ==> unchanged(this)
    {
      if !hasVideo {
        return;
      }
      if hasAutoStart && checked {
        StartStream();
      }
    }

    /** `StreamingModule.isActive`. */
    method IsActive() returns (active: bool)
      ensures active == isStreaming
    {
      active := isStreaming;
    }

    /** `StreamingModule.getStatus`: "streaming" exactly while the flag is
        set, "stopped" otherwise. */
    method GetStatus() returns (status: string)
      ensures status in Statuses
      ensures status == "streaming" <==> isStreaming
      ensures !isStreaming ==> status == "stopped"
    {
      status := if isStreaming then "streaming" else "stopped";
    }
  }

  /** A widget with both buttons, the video and the checkbox, started and
      then playing: Start is disabled, Stop enabled, the indicator online. */
  method StartThenPlayScenario(served: UI) returns (ui: UI, active: bool)
    ensures active
    ensures ui.startDisabled && !ui.startSpinner && !ui.stopDisabled
    ensures ui.statusText == "Stream Ativo" && ui.statusClass == "status-indicator status-online"
  {
    var w := new Widget(true, true, true, true, true, false, served, "");
    w.StartStream();
    w.CheckStreamStatus(4, false);
    ui := w.ui;
    active := w.IsActive();
  }

  /** A stream that fails while starting: the indicator shows the error,
      both buttons are enabled, and Start can start it again. */
  method ErrorThenRetryScenario(served: UI) returns (afterError: UI, retried: bool)
    ensures !afterError.startDisabled && !afterError.stopDisabled
    ensures afterError.statusText == "Erro no Stream"
    ensures retried
  {
    var w := new Widget(true, true, true, true, true, false, served, "");
    w.StartStream();
    w.HandleVideoError();
    afterError := w.ui;
    w.StartStream();
    retried := w.IsActive();
  }

  /** A page with neither an indicator nor the controls container: starting
      updates the buttons, but the status made for the indicator never
      reaches the page, which keeps what it was served with. */
  method DetachedIndicatorScenario(served: UI) returns (ui: UI, attached: bool)
    ensures ui.startDisabled && ui.startSpinner && ui.stopDisabled
    ensures !attached
    ensures ui.statusText == served.statusText && ui.statusClass == served.statusClass
  {
    var w := new Widget(true, true, true, true, false, false, served, "");
    w.StartStream();
    ui, attached := w.ui, w.indicatorAttached;
  }
}
