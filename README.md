# politics.news: presentation core in Dafny

politics.news fetches one RSS feed and shows its items in a terminal list, locally or over SSH. Each
session can open a detail panel for one item and can start the host's browser on that item's link.
This project models the deterministic part of that program, `main.go`:

- **Feed** (`feed.dfy`): the decoded feed (`RSSFeed`, `RSSItem`) and the list entry `ListItem` with its
  accessors (`Title`, `Description`, `FilterValue`). It also holds the adapter `ToListItems`, which
  projects items onto entries. The adapter is a method that fills a freshly allocated array slot by slot.
  It is proved equal to the specification function `ListItemsOf`, and the lemmas below are about that function.
- **Browser** (`browser.dfy`): the choice of program and arguments in `openBrowser`. The host OS is a parameter.
- **Presentation** (`presentation.dfy`): the session model `{list, showDetail, selected}`, the transition
  function `Update`, the rendering `View`, the start of a session in `teaHandler` (`NewSession`), and `Run`.
  `Run` feeds a sequence of messages through `Update` until the quit command, as the UI loop does.
  The list widget is a library. It is modelled as a fixed sequence of entries, a title and a layout
  (highlighted index, width, height). The widget's own message handling is the parameter `react`,
  which can change only the layout. The markdown renderer, the list view and the lipgloss styles are
  fields of a `Renderer` value, and the markdown renderer may fail.
  The `go openBrowser(link)` started by `Update` is modelled as an output: `Step.launch` holds the URL
  whose opening was started.
- **Wrappers** (`wrappers.dfy`): `Option` and `Result`.

The central invariant is `Presentation.Inv`: when the detail view is open, the selected entry is one of
the list's entries. Every transition keeps it, and every session starts in it. So a session over a
fetched feed only ever starts the browser on links of that feed's items.

Behaviours of the code that a reader might not expect, and which the model keeps:

- `esc` closes the detail view but does not clear `selected`. Only `showDetail` changes.
- `enter` works in both states: pressing it with the detail view open selects the entry now highlighted.
- The enter branch's type assertion `.(rssListItem)` succeeds exactly when an entry is highlighted. Every
  entry in the list is built by `toListItems`.

## Model

| member | source | states |
|---|---|---|
| Feed.ToListItems | main.go:156-162 | the result has one entry per item, in order; entry i carries exactly item i's title, description and link; it equals `ListItemsOf` |
| Feed.ListItemsOf | main.go:156-162 | the projection has the same length as its input (empty gives empty) |
| Feed.ListItemsOfConcat | main.go:156-162 | the adapter preserves order: it maps a concatenation to the concatenation of the projections |
| Feed.ListItemsIgnoreOtherFields | main.go:159 | items that agree on title, description and link give equal entries, so id, publish date and creator never reach the list |
| Feed.AccessorsOfListItems | main.go:92-94 | the accessors of entry i return item i's title and description, and the filter key is the title |
| Feed.ListItemOrigin | main.go:159 | every entry comes from an item with the same title and link |
| Browser.OpenBrowser | main.go:214-228 | the error "unsupported platform" is returned exactly for hosts other than linux, windows and darwin; otherwise the URL is the last argument |
| Browser.OpensRequestedUrl | main.go:228 | on a supported host the command opens exactly the requested URL |
| Browser.CommandDependsOnlyOnPlatform | main.go:217-228 | the program and the arguments before the URL do not depend on the URL |
| Browser.PlatformCommands | main.go:217-227 | linux gives `xdg-open url`, windows `rundll32 url.dll,FileProtocolHandler url`, darwin `open url`, and every other host gives the unsupported-platform error |
| Presentation.ListWidget.SelectedItem | main.go:113 | an entry is highlighted exactly when the cursor is inside the list, and the highlighted entry is one of the list's entries |
| Presentation.NewSession | main.go:37-49 | a session starts with the detail view closed and the invariant holding; a failed fetch gives the zero model (no entries, no title); otherwise the entries are the feed's items projected, the title is the feed's, the highlight starts at index 0 and the size is the terminal's |
| Presentation.Update | main.go:106-135 | no transition changes the entries or the title; every transition keeps the invariant; a launch is requested exactly on `o` with the detail view open, and for the selected link; only `enter` opens the detail view; messages other than the five keys keep `showDetail` and `selected` |
| Presentation.QuitKeysQuit | main.go:110-111 | `q` and `ctrl+c` return the model unchanged with the quit command |
| Presentation.EnterSelectsHighlighted | main.go:112-117 | `enter` opens the detail view on the highlighted entry in either state; with nothing highlighted the model is unchanged; the list is not updated, no command is returned |
| Presentation.EnterTwiceIsEnterOnce | main.go:112-117 | a second `enter` without anything else in between changes nothing |
| Presentation.EscClosesDetail | main.go:118-120 | `esc` closes the detail view; list and selected entry are unchanged; no command, no launch |
| Presentation.OpenKeyLaunchesOnlyInDetail | main.go:121-125 | `o` leaves the model unchanged and requests a launch of the selected link if and only if the detail view is open |
| Presentation.EnterThenOpenLaunchesHighlighted | main.go:112-125 | `enter` then `o` opens the link of the entry that was highlighted |
| Presentation.EscThenOpenLaunchesNothing | main.go:118-125 | after `esc`, `o` starts nothing even though the selection is kept |
| Presentation.OtherMessagesGoToList | main.go:132-134 | any message other than the five keys and a resize gets the widget's own answer as the new layout and the command; detail view and selection are untouched |
| Presentation.WindowSizeResizesList | main.go:127-134 | a resize sets the widget's size to the terminal size less the frame, keeps the entries and the cursor, and then hands the message to the widget |
| Presentation.Run | main.go:106-135 | over any sequence of messages handled up to the quit command, the entries never change, the invariant is kept, every launched URL is the link of an entry, and a session with no entries never opens the detail view or starts anything |
| Presentation.SessionOpensOnlyFeedLinks | main.go:46-47 | every URL a session over a fetched feed opens is the link of one of the feed's items |
| Presentation.FailedFetchSessionStaysInList | main.go:40-42 | a session whose fetch failed never opens the detail view and never starts a browser |
| Presentation.DetailMarkdown | main.go:141-145 | the detail markdown is the title as a level-one heading, a blank line, the description, a blank line, `[Source](link)`, a blank line and the key hint, in that order |
| Presentation.View | main.go:137-153 | the screen always starts with the list view; it is the list view alone exactly when the detail view is closed or the markdown fails to render; otherwise the list view is followed by a blank line and the rendered panel |

## Left out

- Fetching the feed (HTTP GET with a 2-second timeout) and decoding the XML (`scrapeUrlFeed`): network I/O and a library decoder. Feeds are given values, and a failed fetch or decode is the `None` passed to `NewSession`.
- The SSH server, its middleware, signal handling and the 30-second graceful shutdown (`main`): network and concurrency plumbing.
- The pty query in `teaHandler`: the terminal size is a parameter of `NewSession`.
- The list widget's navigation, filtering and pagination: its message handling is the parameter `react`. The highlight is an index into the full entry sequence, which is what the source relies on (the highlighted entry is one of the list's entries).
- Rendering by glamour, the list view and the lipgloss styles: these are the functions held in `Renderer`. The document style's frame size is the parameter `Frame`. In the source it is a plain style, whose frame is 0 by 0.
- Logging of a failed markdown render: a side effect with no effect on the screen.
- Starting the browser process (`exec.Command(...).Start()`) and the goroutine that runs `openBrowser`: process spawning and fire-and-forget concurrency. Only the launch request (`Step.launch`) and the command chosen (`OpenBrowser`) are modelled. The launch result is ignored in the source as well.
- `Init`: it returns no command and has no logic.
- Presentation.Run: handles messages strictly in order and stops at the first transition that returns the quit command. The UI library delivers its quit message asynchronously, so messages already queued could still be handled. That scheduling is not modelled.
