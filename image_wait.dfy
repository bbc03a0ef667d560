/** The memo of thumbnail images whose `src` attribute is awaited (`imagesWaitingFor`): at most one
    pending wait per image, shared by every caller, and dropped when the attribute arrives. */
module ImageSrcWait {

  /** An image element; only its current `src` matters here. */
  class ImageElement {
    var src: string

    constructor (src: string)
      ensures this.src == src
    {
      this.src := src;
    }
  }

  /** The promise a wait hands out, compared by identity. */
  class PendingWait {
    constructor ()
    {
    }
  }

  /** A mutation observer's batch contains a `src` change while the image's source is non-empty. */
  predicate SrcArrived(attributeNames: seq<string>, src: string)
  {
    src != "" && exists i | 0 <= i < |attributeNames| :: attributeNames[i] == "src"
  }

  class ImagesWaitingFor {
    var pending: map<ImageElement, PendingWait>

    constructor ()
      ensures pending == map[]
    {
      pending := map[];
    }

    /** waitForImageSrc: the wait already pending for the image if there is one (nothing changes);
        otherwise a new wait, recorded for the image. No other image's entry changes. */
    method WaitForImageSrc(image: ImageElement) returns (w: PendingWait)
      modifies this
      ensures image in pending && pending[image] == w
      ensures image in old(pending) ==> w == old(pending[image]) && pending == old(pending)
      ensures image !in old(pending) ==> fresh(w) && pending == old(pending)[image := w]
    {
      if image in pending {
        w := pending[image];
      } else {
        w := new PendingWait();
        pending := pending[image := w];
      }
    }

    /** The observer callback for `image`: scans the batch for a `src` change while the source is
        non-empty; on the first one it resolves the wait, deletes the image's entry and stops. */
    method OnMutations(image: ImageElement, attributeNames: seq<string>) returns (resolved: bool)
      modifies this
      ensures resolved <==> SrcArrived(attributeNames, image.src)
      ensures pending == if resolved then old(pending) - {image} else old(pending)
    {
      resolved := false;
      var i := 0;
      while i < |attributeNames|
        invariant 0 <= i <= |attributeNames|
        invariant pending == old(pending)
        invariant !resolved
        invariant image.src == "" || forall j | 0 <= j < i :: attributeNames[j] != "src"
      {
        if attributeNames[i] == "src" && image.src != "" {
          resolved := true;
          pending := pending - {image};
          break;
        }
        i := i + 1;
      }
    }
  }
}
