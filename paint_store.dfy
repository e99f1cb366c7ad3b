/**
 * The paint feature's shared store: the selected stroke color and the
 * selected template image. Each setter overwrites one field.
 */
module PaintStore {

  /** A template image; `source` names the bundled asset it was loaded from and `labelText` is its caption. */
  datatype ImageEntry = ImageEntry(id: string, source: string, labelText: string)

  const DuckImage := ImageEntry("duck", "../../assets/paint/duck.jpg", "Duck")
  const MarioImage := ImageEntry("mario", "../../assets/paint/mario.jpg", "Mario")

  /** The bundled template images, the duck first. */
  const Images: seq<ImageEntry> := [DuckImage, MarioImage]

  const InitialColor := "#000000"

  class Store {
    var color: string
    var selectedImage: ImageEntry

    /** The store starts with black and the first template image (the duck). */
    constructor ()
      ensures color == InitialColor
      ensures selectedImage == Images[0] && selectedImage.id == "duck"
    {
      color := InitialColor;
      selectedImage := Images[0];
    }

    method SetColor(c: string)
      modifies this
      ensures color == c
      ensures selectedImage == old(selectedImage)
    {
      color := c;
    }

    method SetSelectedImage(image: ImageEntry)
      modifies this
      ensures selectedImage == image
      ensures color == old(color)
    {
      selectedImage := image;
    }
  }
}
