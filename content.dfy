/** The content script: its runtime-message listener and the floating panel
    it owns (a container with an embedded extension page), moved by a drag
    on its top strip and resized from a corner handle. */
module Content {
  import opened Text
  import opened Protocol

  /** The height of the strip at the top of the panel a drag starts in. */
  const HeaderHeight := 40
  /** The smallest width or height a resize applies. */
  const MinSize := 200
  /** The height of the square resize handle in the bottom-right corner. */
  const HandleSize := 15
  /** The page the panel's iframe loads. The page sets the `src` to the
      absolute url `chrome.runtime.getURL` makes of this path, under
      `chrome-extension://` and the extension's id; the model keeps the
      path. */
  const PopupPage := "popup/index.html"
  /** Urls with this prefix are loaded in the panel; others open a tab. */
  const ExtensionScheme := "chrome-extension://"

  /** The container's `left`, `top`, `width` and `height` in px. */
  datatype Box = Box(left: int, top: int, width: int, height: int)

  /** Where the container is created. */
  const InitialBox := Box(100, 100, 400, 500)

  datatype Point = Point(x: int, y: int)

  /** The handlers the script adds to `document`. */
  datatype Listener = DragMove | DragUp | ResizeMove | ResizeUp

  const DocumentListeners: set<Listener> := {DragMove, DragUp, ResizeMove, ResizeUp}

  /** The `data` of a window `message` event. */
  datatype FrameData = Navigate(url: Option<string>) | ClosePopup | OtherData

  /** A `navigate` url that is loaded in the panel's iframe. */
  predicate LoadsInFrame(url: Option<string>) {
    NonEmpty(url) && StartsWith(url.value, ExtensionScheme)
  }

  /** A `navigate` url that is opened in a new tab. */
  predicate OpensTab(url: Option<string>) {
    NonEmpty(url) && !StartsWith(url.value, ExtensionScheme)
  }

  function Min(a: int, b: int): (m: int) { if a <= b then a else b }
  function Max(a: int, b: int): (m: int) { if a <= b then b else a }

  /** `Math.max(0, Math.min(v, limit))`: a drag coordinate kept inside the
      viewport, the far bound being `limit`. */
  function Clamp(v: int, limit: int): (r: int)
    ensures 0 <= r
    ensures 0 <= limit ==> r <= limit
    ensures 0 <= v <= limit ==> r == v
    ensures v < 0 || limit < 0 ==> r == 0
    ensures 0 <= limit < v ==> r == limit
  {
    Max(0, Min(v, limit))
  }

  /** The resize rule for one axis: the proposed size is applied only when
      it reaches the floor; otherwise the current size stays. */
  function ResizeAxis(current: int, proposed: int): (r: int)
    ensures proposed >= MinSize ==> r == proposed
    ensures proposed < MinSize ==> r == current
    ensures current >= MinSize ==> r >= MinSize
  {
    if proposed >= MinSize then proposed else current
  }

  /** The module state of one content-script instance and the part of the
      page it changes. */
  class Bridge {
    // The module variables.
    /** The iframe of the open panel, by the id of its window. */
    var popupElement: Option<nat>
    var isPopupOpen: bool
    var isDragging: bool
    var dragOffset: Point
    var isResizing: bool
    var originalWidth: int
    var originalHeight: int
    var originalMouseX: int
    var originalMouseY: int

    // The page.
    /** The container element, present while the panel is in the document. */
    var container: Option<Box>
    /** The `src` of the current iframe. */
    var frameSrc: string
    /** The `mousemove`/`mouseup` handlers on `document`. */
    var docListeners: set<Listener>
    /** The window `message` handlers, each bound to the iframe whose load
        added it; none is ever removed. */
    var frameHandlers: seq<nat>
    /** Urls handed to `chrome.tabs.create`, oldest first. */
    var openedTabs: seq<string>
    /** The id the next iframe's window gets. */
    var nextFrame: nat

    /** What the handlers keep true of the state. */
    ghost predicate Valid()
      reads this
    {
      && (popupElement.Some? <==> isPopupOpen)
      && (container.Some? <==> isPopupOpen)
      && (popupElement.Some? ==> popupElement.value < nextFrame)
      && (forall i :: 0 <= i < |frameHandlers| ==> frameHandlers[i] < nextFrame)
      && (container.Some? ==>
            && container.value.left >= 0 && container.value.top >= 0
            && container.value.width >= MinSize && container.value.height >= MinSize)
      && docListeners <= DocumentListeners
      && (DragMove in docListeners <==> DragUp in docListeners)
      && (ResizeMove in docListeners <==> ResizeUp in docListeners)
      && (DragMove in docListeners ==> isDragging)
      && (ResizeMove in docListeners ==> isResizing)
      && (docListeners != {} ==> isPopupOpen)
    }

    /** The state when the script is first evaluated in a page. */
    constructor ()
      ensures Valid()
      ensures popupElement == None && !isPopupOpen && !isDragging && dragOffset == Point(0, 0)
      ensures !isResizing && originalWidth == 0 && originalHeight == 0
      ensures originalMouseX == 0 && originalMouseY == 0
      ensures container == None && docListeners == {} && frameHandlers == [] && openedTabs == []
    {
      popupElement := None;
      isPopupOpen := false;
      isDragging := false;
      dragOffset := Point(0, 0);
      isResizing := false;
      originalWidth, originalHeight := 0, 0;
      originalMouseX, originalMouseY := 0, 0;
      container := None;
      frameSrc := "";
      docListeners := {};
      frameHandlers := [];
      openedTabs := [];
      nextFrame := 0;
    }

    /** The `runtime.onMessage` listener: `ping` answers `'pong'`,
        `togglePopup` closes an open panel or opens a closed one and answers
        `{success: true}`; both keep the channel open. Any other message
        returns false and changes nothing. */
    method OnRuntimeMessage(action: Option<string>) returns (reply: Option<TabReply>, keepOpen: bool)
      requires Valid()
      modifies this`container, this`frameSrc, this`popupElement, this`nextFrame, this`isPopupOpen,
               this`docListeners
      ensures Valid()
      ensures keepOpen <==> reply.Some?
      ensures action == Some(PingAction) ==> reply == Some(TextReply(PongText))
      ensures action != Some(PingAction) && action != Some(ToggleAction) ==> reply == None
      ensures action != Some(ToggleAction) ==> unchanged(this)
      ensures action == Some(ToggleAction) ==>
        reply == Some(AckReply(true)) && isPopupOpen == !old(isPopupOpen)
      ensures action == Some(ToggleAction) && old(isPopupOpen) ==>
        container == None && docListeners == {}
      ensures action == Some(ToggleAction) && !old(isPopupOpen) ==>
        container == Some(InitialBox) && docListeners == old(docListeners)
    {
      if action == Some(PingAction) {
        return Some(TextReply(PongText)), true;
      }
      if action == Some(ToggleAction) {
        if isPopupOpen {
          RemovePopup();
        } else {
          CreatePopup();
        }
        return Some(AckReply(true)), true;
      }
      return None, false;
    }

    /** `createPopup`: nothing when an iframe is already referenced;
        otherwise attach a container at the initial place and size with a
        fresh iframe on the popup page, and mark the panel open. */
    method CreatePopup()
      requires Valid()
      modifies this`container, this`frameSrc, this`popupElement, this`nextFrame, this`isPopupOpen
      ensures Valid()
      ensures old(popupElement).Some? ==> unchanged(this)
      ensures old(popupElement).None? ==>
        && popupElement == Some(old(nextFrame)) && nextFrame == old(nextFrame) + 1
        && isPopupOpen && container == Some(InitialBox) && frameSrc == PopupPage
    {
      if popupElement.Some? {
        return;
      }
      container := Some(InitialBox);
      frameSrc := PopupPage;
      popupElement := Some(nextFrame);
      nextFrame := nextFrame + 1;
      isPopupOpen := true;
    }

    /** `removePopup`: detach the container, forget the iframe, mark the
        panel closed and take the four drag and resize handlers off
        `document`. The window `message` handlers stay, and so do the
        `isDragging` and `isResizing` flags. */
    method RemovePopup()
      requires Valid()
      modifies this`container, this`popupElement, this`isPopupOpen, this`docListeners
      ensures Valid()
      ensures container == None && popupElement == None && !isPopupOpen
      ensures docListeners == old(docListeners) - DocumentListeners
    {
      container := None;
      popupElement := None;
      isPopupOpen := false;
      docListeners := docListeners - DocumentListeners;
    }

    /** The iframe's `load` listener: add a window `message` handler bound
        to the current iframe. It runs on every load of the iframe, the
        first and each one a navigation causes. */
    method OnFrameLoad()
      requires Valid()
      modifies this`frameHandlers
      ensures Valid()
      ensures popupElement.Some? ==> frameHandlers == old(frameHandlers) + [popupElement.value]
      ensures popupElement.None? ==> frameHandlers == old(frameHandlers)
    {
      if popupElement.Some? {
        frameHandlers := frameHandlers + [popupElement.value];
      }
    }

    /** The `contentWindow` of an iframe: its window while it is the
        attached panel iframe, `null` (None) once it has been removed. */
    function ContentWindow(frame: nat): (w: Option<int>)
      reads this
    {
      if popupElement == Some(frame) then Some(frame) else None
    }

    /** Whether the `message` handler at position `h` takes an event from
        `source`: only when it is its iframe's current window. */
    predicate Accepts(h: nat, source: Option<int>)
      reads this
      requires h < |frameHandlers|
    {
      ContentWindow(frameHandlers[h]) == source
    }

    /** The window `message` handler at position `h` runs for one event:
        it ignores the event unless the source is its iframe's window; a
        non-empty `navigate` url under `chrome-extension://` is loaded in that
        iframe, any other opens a tab; `closePopup` removes the panel.
        `frameSrc` follows the current iframe only. */
    method HandleFrameMessage(h: nat, source: Option<int>, data: FrameData)
      requires Valid()
      requires h < |frameHandlers|
      modifies this`container, this`popupElement, this`isPopupOpen, this`docListeners,
               this`frameSrc, this`openedTabs
      ensures Valid()
      ensures !old(Accepts(h, source)) ==> unchanged(this)
      ensures openedTabs == old(openedTabs) +
        if old(Accepts(h, source)) && data.Navigate? && OpensTab(data.url) then [data.url.value] else []
      ensures frameSrc ==
        if old(Accepts(h, source)) && data.Navigate? && LoadsInFrame(data.url)
           && old(popupElement) == Some(frameHandlers[h])
        then data.url.value
        else old(frameSrc)
      ensures old(Accepts(h, source)) && data.ClosePopup? ==>
        container == None && popupElement == None && !isPopupOpen
        && docListeners == old(docListeners) - DocumentListeners
      ensures !(old(Accepts(h, source)) && data.ClosePopup?) ==>
        container == old(container) && popupElement == old(popupElement)
        && isPopupOpen == old(isPopupOpen) && docListeners == old(docListeners)
    {
      var frame := frameHandlers[h];
      if ContentWindow(frame) != source {
        return;
      }
      match data
      case Navigate(url) =>
        if NonEmpty(url) {
          if StartsWith(url.value, ExtensionScheme) {
            // A removed iframe takes the new src too, with nothing to show.
            if popupElement == Some(frame) {
              frameSrc := url.value;
            }
          } else {
            openedTabs := openedTabs + [url.value];
          }
        }
      case ClosePopup =>
        RemovePopup();
      case OtherData =>
    }

    /** `startDragging`: with the container present, set the flag, record
        the pointer's offset from the container's corner and add the drag
        handlers to `document`. */
    method StartDragging(clientX: int, clientY: int)
      requires Valid()
      modifies this`isDragging, this`dragOffset, this`docListeners
      ensures Valid()
      ensures old(container).None? ==> unchanged(this)
      ensures old(container).Some? ==>
        && isDragging
        && dragOffset == Point(clientX - container.value.left, clientY - container.value.top)
        && docListeners == old(docListeners) + {DragMove, DragUp}
    {
      if container.None? {
        return;
      }
      isDragging := true;
      dragOffset := Point(clientX - container.value.left, clientY - container.value.top);
      docListeners := docListeners + {DragMove, DragUp};
    }

    /** The container's `mousedown` listener: a press less than 40 px from
        the top of the element it lands on starts a drag. */
    method MouseDownOnContainer(offsetY: int, clientX: int, clientY: int)
      requires Valid()
      modifies this`isDragging, this`dragOffset, this`docListeners
      ensures Valid()
      ensures offsetY >= HeaderHeight || old(container).None? ==> unchanged(this)
      ensures offsetY < HeaderHeight && old(container).Some? ==>
        && isDragging
        && dragOffset == Point(clientX - container.value.left, clientY - container.value.top)
        && docListeners == old(docListeners) + {DragMove, DragUp}
    {
      if offsetY < HeaderHeight {
        StartDragging(clientX, clientY);
      }
    }

    /** `onDrag`: while dragging a present container, move it under the
        pointer, each coordinate clamped to the viewport. */
    method OnDrag(clientX: int, clientY: int, innerWidth: int, innerHeight: int)
      requires Valid()
      modifies this`container
      ensures Valid()
      ensures !isDragging || old(container).None? ==> container == old(container)
      ensures isDragging && old(container).Some? ==>
        var b := old(container).value;
        container == Some(b.(left := Clamp(clientX - dragOffset.x, innerWidth - b.width),
                             top := Clamp(clientY - dragOffset.y, innerHeight - b.height)))
    {
      if !isDragging {
        return;
      }
      if container.None? {
        return;
      }
      var b := container.value;
      var newLeft := clientX - dragOffset.x;
      var newTop := clientY - dragOffset.y;
      var maxLeft := innerWidth - b.width;
      var maxTop := innerHeight - b.height;
      container := Some(b.(left := Max(0, Min(newLeft, maxLeft)), top := Max(0, Min(newTop, maxTop))));
    }

    /** `stopDragging`: clear the flag and take the drag handlers off. */
    method StopDragging()
      requires Valid()
      modifies this`isDragging, this`docListeners
      ensures Valid()
      ensures !isDragging && docListeners == old(docListeners) - {DragMove, DragUp}
    {
      isDragging := false;
      docListeners := docListeners - {DragMove, DragUp};
    }

    /** `startResizing`: with the container present, set the flag, record
        its size and the pointer position, and add the resize handlers. */
    method StartResizing(clientX: int, clientY: int)
      requires Valid()
      modifies this`isResizing, this`originalWidth, this`originalHeight,
               this`originalMouseX, this`originalMouseY, this`docListeners
      ensures Valid()
      ensures old(container).None? ==> unchanged(this)
      ensures old(container).Some? ==>
        && isResizing
        && originalWidth == container.value.width && originalHeight == container.value.height
        && originalMouseX == clientX && originalMouseY == clientY
        && docListeners == old(docListeners) + {ResizeMove, ResizeUp}
    {
      if container.None? {
        return;
      }
      isResizing := true;
      originalWidth := container.value.width;
      originalHeight := container.value.height;
      originalMouseX := clientX;
      originalMouseY := clientY;
      docListeners := docListeners + {ResizeMove, ResizeUp};
    }

    /** `onResize`: while resizing a present container, grow or shrink
        each axis by the pointer's travel, applying each only when it
        reaches the 200 px floor. */
    method OnResize(clientX: int, clientY: int)
      requires Valid()
      modifies this`container
      ensures Valid()
      ensures !isResizing || old(container).None? ==> container == old(container)
      ensures isResizing && old(container).Some? ==>
        var b := old(container).value;
        container == Some(b.(width := ResizeAxis(b.width, originalWidth + (clientX - originalMouseX)),
                             height := ResizeAxis(b.height, originalHeight + (clientY - originalMouseY))))
    {
      if !isResizing {
        return;
      }
      if container.None? {
        return;
      }
      var newWidth := originalWidth + (clientX - originalMouseX);
      var newHeight := originalHeight + (clientY - originalMouseY);
      if newWidth >= MinSize {
        container := Some(container.value.(width := newWidth));
      }
      if newHeight >= MinSize {
        container := Some(container.value.(height := newHeight));
      }
    }

    /** A `mousedown` on the resize handle as the page delivers it: the
        handle's own listener starts a resize, then the event bubbles to the
        container, whose listener reads the same `offsetY`, measured inside
        the 15 px handle and so below 40, and starts a drag as well. */
    method MouseDownOnResizeHandle(offsetY: int, clientX: int, clientY: int)
      requires Valid()
      requires 0 <= offsetY < HandleSize
      modifies this`isResizing, this`originalWidth, this`originalHeight,
               this`originalMouseX, this`originalMouseY, this`docListeners,
               this`isDragging, this`dragOffset
      ensures Valid()
      ensures old(container).None? ==> unchanged(this)
      ensures old(container).Some? ==>
        && isResizing && isDragging
        && docListeners == old(docListeners) + DocumentListeners
        && dragOffset == Point(clientX - container.value.left, clientY - container.value.top)
        && originalWidth == container.value.width && originalHeight == container.value.height
        && originalMouseX == clientX && originalMouseY == clientY
    {
      StartResizing(clientX, clientY);
      MouseDownOnContainer(offsetY, clientX, clientY);
    }

    /** The same press when the handle's listener also stops the event from
        reaching the container: only the resize starts. */
    method MouseDownOnResizeHandleContained(offsetY: int, clientX: int, clientY: int)
      requires Valid()
      requires 0 <= offsetY < HandleSize
      modifies this`isResizing, this`originalWidth, this`originalHeight,
               this`originalMouseX, this`originalMouseY, this`docListeners
      ensures Valid()
      ensures old(container).None? ==> unchanged(this)
      ensures old(container).Some? ==>
        && isResizing && isDragging == old(isDragging)
        && docListeners == old(docListeners) + {ResizeMove, ResizeUp}
        && (DragMove in docListeners <==> DragMove in old(docListeners))
        && originalWidth == container.value.width && originalHeight == container.value.height
        && originalMouseX == clientX && originalMouseY == clientY
    {
      StartResizing(clientX, clientY);
    }

    /** The handler list holds each iframe at most once. */
    ghost predicate HandlersDistinct()
      reads this
    {
      forall i, j :: 0 <= i < j < |frameHandlers| ==> frameHandlers[i] != frameHandlers[j]
    }

    /** The `load` listener when the handler is added only on the iframe's
        first load, so that each iframe has one `message` handler. */
    method OnFrameLoadOnce()
      requires Valid()
      modifies this`frameHandlers
      ensures Valid()
      ensures old(HandlersDistinct()) ==> HandlersDistinct()
      ensures popupElement.Some? ==> popupElement.value in frameHandlers
      ensures popupElement.Some? && popupElement.value !in old(frameHandlers) ==>
        frameHandlers == old(frameHandlers) + [popupElement.value]
      ensures popupElement.None? || popupElement.value in old(frameHandlers) ==>
        frameHandlers == old(frameHandlers)
    {
      if popupElement.Some? && popupElement.value !in frameHandlers {
        frameHandlers := frameHandlers + [popupElement.value];
      }
    }

    /** `stopResizing`: clear the flag and take the resize handlers off. */
    method StopResizing()
      requires Valid()
      modifies this`isResizing, this`docListeners
      ensures Valid()
      ensures !isResizing && docListeners == old(docListeners) - {ResizeMove, ResizeUp}
    {
      isResizing := false;
      docListeners := docListeners - {ResizeMove, ResizeUp};
    }
  }
}
