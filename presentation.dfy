/**
 * The presentation state of one session: the list widget, whether the detail
 * view is open, and the entry the detail view shows. `Update` is the transition
 * function the terminal UI loop calls for every message, `View` the rendering.
 *
 * The list widget is a library component. It is modelled by what this program
 * relies on: a fixed sequence of entries, a title, and a layout (the highlighted
 * index and the size) that only the widget itself changes. Its own message
 * handling is the parameter `react`, which returns a new layout and a command,
 * so by construction it cannot change the entries.
 */
module Presentation {
  import opened Wrappers
  import opened Feed

  /** The part of the widget's state it changes by itself: highlight and size. */
  datatype Layout = Layout(cursor: int, width: int, height: int)

  /** The list widget: entries and title are set when the session starts. */
  datatype ListWidget = ListWidget(items: seq<ListItem>, title: string, layout: Layout) {

    /** The highlighted entry, or nothing when the cursor is on no entry (an empty list). */
    function SelectedItem(): (r: Option<ListItem>)
      ensures r.Some? <==> 0 <= layout.cursor < |items|
      ensures r.Some? ==> r.value in items
    {
      if 0 <= layout.cursor < |items| then Some(items[layout.cursor]) else None
    }

    function SetSize(width: int, height: int): ListWidget
    {
      this.(layout := layout.(width := width, height := height))
    }
  }

  /** Messages delivered by the UI loop: key presses by name, terminal resizes, anything else. */
  datatype Msg = KeyPress(key: string) | WindowSize(width: int, height: int) | Other(tag: nat)

  /** Commands handed back to the UI loop; `WidgetCmd` stands for whatever the widget returns. */
  datatype Cmd = NoCmd | QuitCmd | WidgetCmd(tag: nat)

  /** The widget's own reaction to a message: its next layout and a command. */
  type ListReaction = (ListWidget, Msg) -> (Layout, Cmd)

  /** Horizontal and vertical frame size of the document style around the list. */
  datatype Frame = Frame(h: int, v: int)

  datatype Model = Model(list: ListWidget, showDetail: bool, selected: ListItem)

  /**
   * The result of one transition: the next model, the command for the UI loop,
   * and the URL whose opening in a browser was started, if any.
   */
  datatype Step = Step(next: Model, cmd: Cmd, launch: Option<string>)

  /** The detail view only ever shows an entry of the list. */
  predicate Inv(m: Model)
  {
    m.showDetail ==> m.selected in m.list.items
  }

  /** The keys the model handles itself instead of passing them to the widget. */
  predicate IsBoundKey(msg: Msg)
  {
    msg.KeyPress? && msg.key in {"ctrl+c", "q", "enter", "esc", "o"}
  }

  /** The zero entry, which `selected` holds before anything was selected. */
  const NoItem := ListItem("", "", "")

  /**
   * The model a session starts with. `fetched` is the feed, or `None` when
   * fetching or decoding it failed; then the session gets the zero model, an
   * empty untitled list. `width` and `height` are the terminal's size.
   */
  function NewSession(fetched: Option<RSSFeed>, width: int, height: int): (m: Model)
    ensures Inv(m) && !m.showDetail
    ensures fetched.None? ==> m.list.items == [] && m.list.title == ""
    ensures fetched.Some? ==>
      m.list.items == ListItemsOf(fetched.value.items) && m.list.title == fetched.value.title
    ensures fetched.Some? ==> m.list.layout == Layout(0, width, height)
  {
    match fetched
    case None => Model(ListWidget([], "", Layout(0, 0, 0)), false, NoItem)
    case Some(feed) =>
      Model(ListWidget(ListItemsOf(feed.items), feed.title, Layout(0, width, height)), false, NoItem)
  }

  /** Hands `msg` to the widget `w` (the model's list, possibly resized) and keeps its answer. */
  function Forward(m: Model, w: ListWidget, msg: Msg, react: ListReaction): Step
  {
    var (layout, cmd) := react(w, msg);
    Step(m.(list := w.(layout := layout)), cmd, None)
  }

  /** One transition of the presentation state machine. */
  function Update(m: Model, msg: Msg, frame: Frame, react: ListReaction): (r: Step)
    ensures r.next.list.items == m.list.items && r.next.list.title == m.list.title
    ensures Inv(m) ==> Inv(r.next)
    ensures r.launch.Some? <==> msg == KeyPress("o") && m.showDetail
    ensures r.launch.Some? ==> r.launch.value == m.selected.link
    ensures r.next.showDetail && !m.showDetail ==> msg == KeyPress("enter")
    ensures !IsBoundKey(msg) ==> r.next.showDetail == m.showDetail && r.next.selected == m.selected
  {
    match msg
    case KeyPress(k) =>
      if k == "ctrl+c" || k == "q" then
        Step(m, QuitCmd, None)
      else if k == "enter" then
        match m.list.SelectedItem()
        case Some(item) => Step(m.(showDetail := true, selected := item), NoCmd, None)
        case None => Step(m, NoCmd, None)
      else if k == "esc" then
        Step(m.(showDetail := false), NoCmd, None)
      else if k == "o" then
        Step(m, NoCmd, if m.showDetail then Some(m.selected.link) else None)
      else
        Forward(m, m.list, msg, react)
    case WindowSize(width, height) =>
      Forward(m, m.list.SetSize(width - frame.h, height - frame.v), msg, react)
    case Other(_) =>
      Forward(m, m.list, msg, react)
  }

  /** `q` and `ctrl+c` quit and change nothing. */
  lemma QuitKeysQuit(m: Model, k: string, frame: Frame, react: ListReaction)
    requires k == "q" || k == "ctrl+c"
    ensures Update(m, KeyPress(k), frame, react) == Step(m, QuitCmd, None)
  {
  }

  /**
   * `enter` opens the detail view on the highlighted entry, whether or not the
   * detail view was open; with nothing highlighted it changes nothing. The list
   * is not consulted and no command is returned.
   */
  lemma EnterSelectsHighlighted(m: Model, frame: Frame, react: ListReaction)
    ensures var r := Update(m, KeyPress("enter"), frame, react);
      && r.cmd == NoCmd && r.launch == None && r.next.list == m.list
      && match m.list.SelectedItem()
         case Some(item) => r.next.showDetail && r.next.selected == item
         case None => r.next == m
  {
  }

  /** Pressing `enter` twice is the same as pressing it once. */
  lemma EnterTwiceIsEnterOnce(m: Model, frame: Frame, react: ListReaction)
    ensures var once := Update(m, KeyPress("enter"), frame, react).next;
      Update(once, KeyPress("enter"), frame, react).next == once
  {
  }

  /** `esc` closes the detail view and keeps the list and the selected entry. */
  lemma EscClosesDetail(m: Model, frame: Frame, react: ListReaction)
    ensures var r := Update(m, KeyPress("esc"), frame, react);
      && !r.next.showDetail && r.next.list == m.list && r.next.selected == m.selected
      && r.cmd == NoCmd && r.launch == None
  {
  }

  /** `o` changes nothing and starts the browser on the selected link exactly when the detail view is open. */
  lemma OpenKeyLaunchesOnlyInDetail(m: Model, frame: Frame, react: ListReaction)
    ensures var r := Update(m, KeyPress("o"), frame, react);
      && r.next == m && r.cmd == NoCmd
      && (r.launch.Some? <==> m.showDetail)
      && (m.showDetail ==> r.launch == Some(m.selected.link))
  {
  }

  /** Selecting with `enter` and then pressing `o` opens the highlighted entry's link. */
  lemma EnterThenOpenLaunchesHighlighted(m: Model, frame: Frame, react: ListReaction)
    requires m.list.SelectedItem().Some?
    ensures var entered := Update(m, KeyPress("enter"), frame, react).next;
      Update(entered, KeyPress("o"), frame, react).launch == Some(m.list.SelectedItem().value.link)
  {
  }

  /** After `esc`, `o` starts nothing, although the selection is kept. */
  lemma EscThenOpenLaunchesNothing(m: Model, frame: Frame, react: ListReaction)
    ensures var closed := Update(m, KeyPress("esc"), frame, react).next;
      Update(closed, KeyPress("o"), frame, react).launch == None
  {
  }

  /**
   * Any other message goes to the widget, which answers with the next layout
   * and the command; the detail view and the selection are untouched.
   */
  lemma OtherMessagesGoToList(m: Model, msg: Msg, frame: Frame, react: ListReaction)
    requires !IsBoundKey(msg) && !msg.WindowSize?
    ensures var r := Update(m, msg, frame, react);
      && (r.next.list.layout, r.cmd) == react(m.list, msg)
      && r.next.showDetail == m.showDetail && r.next.selected == m.selected && r.launch == None
  {
  }

  /** A resize first gives the widget the terminal size less the frame, then hands it the message. */
  lemma WindowSizeResizesList(m: Model, width: int, height: int, frame: Frame, react: ListReaction)
    ensures var r := Update(m, WindowSize(width, height), frame, react);
      var resized := m.list.SetSize(width - frame.h, height - frame.v);
      && resized.layout.width == width - frame.h && resized.layout.height == height - frame.v
      && resized.layout.cursor == m.list.layout.cursor && resized.items == m.list.items
      && (r.next.list.layout, r.cmd) == react(resized, WindowSize(width, height))
      && r.next.showDetail == m.showDetail && r.next.selected == m.selected && r.launch == None
  {
  }

  /** The link is one of the URLs of the entries. */
  predicate IsItemLink(items: seq<ListItem>, url: string)
  {
    exists e :: e in items && e.link == url
  }

  /** What a session did with a sequence of messages: the last model, the URLs opened, whether it quit. */
  datatype Trace = Trace(final: Model, launches: seq<string>, quit: bool)

  /**
   * The UI loop of one session: the messages are handled in order until a
   * transition returns the quit command; later messages are not handled.
   */
  function Run(m: Model, msgs: seq<Msg>, frame: Frame, react: ListReaction): (t: Trace)
    ensures t.final.list.items == m.list.items
    ensures Inv(m) ==> Inv(t.final)
    ensures Inv(m) ==> forall u :: u in t.launches ==> IsItemLink(m.list.items, u)
    ensures Inv(m) && m.list.items == [] ==> !t.final.showDetail && t.launches == []
    decreases |msgs|
  {
    if msgs == [] then Trace(m, [], false)
    else
      var s := Update(m, msgs[0], frame, react);
      var now := if s.launch.Some? then [s.launch.value] else [];
      if s.cmd == QuitCmd then Trace(s.next, now, true)
      else
        var rest := Run(s.next, msgs[1..], frame, react);
        Trace(rest.final, now + rest.launches, rest.quit)
  }

  /** A session over a fetched feed only ever opens links of that feed's items. */
  lemma SessionOpensOnlyFeedLinks(feed: RSSFeed, width: int, height: int, msgs: seq<Msg>, frame: Frame, react: ListReaction)
    ensures var t := Run(NewSession(Some(feed), width, height), msgs, frame, react);
      forall u :: u in t.launches ==> exists i :: 0 <= i < |feed.items| && feed.items[i].link == u
  {
  }

  /** A session whose fetch failed never opens the detail view and never starts a browser. */
  lemma FailedFetchSessionStaysInList(width: int, height: int, msgs: seq<Msg>, frame: Frame, react: ListReaction)
    ensures var t := Run(NewSession(None, width, height), msgs, frame, react);
      !t.final.showDetail && t.launches == []
  {
  }

  /** The libraries that draw: the list widget, the document and modal styles, the markdown renderer. */
  datatype Renderer = Renderer(
    listView: ListWidget -> string,
    doc: string -> string,
    markdown: string -> Result<string, string>,
    modal: string -> string)

  /** The line under the detail text that names the keys. */
  const Hint := "*Press 'o' to open in browser, press Esc to go back.*"

  /** The markdown of the detail view: the title as a heading, the description, the link as its source, the hint. */
  function DetailMarkdown(item: ListItem): (s: string)
    ensures |s| == |item.title| + |item.desc| + |item.link| + |Hint| + 18
    ensures s[..|item.title| + 4] == "# " + item.title + "\n\n"
    ensures s[|s| - |Hint|..] == Hint
    ensures s[|item.title| + 4..|item.title| + 4 + |item.desc|] == item.desc
    ensures s[|item.title| + 4 + |item.desc|..|s| - |Hint|] == "\n\n[Source](" + item.link + ")\n\n"
  {
    "# " + item.title + "\n\n" + item.desc + "\n\n[Source](" + item.link + ")\n\n" + Hint
  }

  /** The list as drawn inside the document style. */
  function ListView(m: Model, rd: Renderer): string
  {
    rd.doc(rd.listView(m.list))
  }

  /**
   * The screen: the list, followed by a blank line and the detail panel when the
   * detail view is open. When the markdown cannot be rendered the list is shown alone.
   */
  function View(m: Model, rd: Renderer): (r: string)
    ensures |ListView(m, rd)| <= |r| && r[..|ListView(m, rd)|] == ListView(m, rd)
    ensures r == ListView(m, rd) <==> !m.showDetail || rd.markdown(DetailMarkdown(m.selected)).Failure?
    ensures r != ListView(m, rd) ==>
      r[|ListView(m, rd)|..] == "\n\n" + rd.modal(rd.markdown(DetailMarkdown(m.selected)).value)
  {
    var listView := ListView(m, rd);
    if m.showDetail then
      match rd.markdown(DetailMarkdown(m.selected))
      case Failure(_) => listView
      case Success(out) => listView + "\n\n" + rd.modal(out)
    else
      listView
  }
}
