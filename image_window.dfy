/** The frame preview dialog of windows/image_window.py: the fixed crop of a
    captured frame, the name-uniqueness query and the guarded save of both
    images into the save location. */
module ImageWindow {
  import opened Paths

  /** One decoded RGB pixel; its value is opaque to the application. */
  datatype Pixel = Pixel(red: bv8, green: bv8, blue: bv8)

  /** A raster image as rows of pixels, with its reported size. */
  datatype Image = Image(width: nat, height: nat, rows: seq<seq<Pixel>>) {
    predicate Valid() {
      |rows| == height && forall y | 0 <= y < |rows| :: |rows[y]| == width
    }

    function At(x: nat, y: nat): Pixel
      requires Valid() && x < width && y < height
    {
      rows[y][x]
    }
  }

  /** A crop box as the image library takes it: left, upper, right, lower. */
  datatype Box = Box(left: int, upper: int, right: int, lower: int)

  predicate Fits(img: Image, box: Box) {
    0 <= box.left <= box.right <= img.width && 0 <= box.upper <= box.lower <= img.height
  }

  /** The sub-image inside `box`; a new image, the source is a value and
      stays as it was. */
  function Crop(img: Image, box: Box): (r: Image)
    requires img.Valid() && Fits(img, box)
    ensures r.Valid()
    ensures r.width == box.right - box.left && r.height == box.lower - box.upper
    ensures forall x: nat, y: nat | x < r.width && y < r.height ::
              r.At(x, y) == img.At(x + box.left, y + box.upper)
  {
    var h := box.lower - box.upper;
    Image(box.right - box.left, h,
          seq(h, y requires 0 <= y < h => img.rows[y + box.upper][box.left..box.right]))
  }

  const CropLeft := 600
  const CropTop := 51
  const CropRightMargin := 831

  /** The hard-coded box `(600, 51, width - 831, height)`. */
  function CropBox(width: int, height: int): Box {
    Box(CropLeft, CropTop, width - CropRightMargin, height)
  }

  /** Frames the fixed box fits into; narrower or shorter frames are outside
      what the application handles. */
  predicate Croppable(img: Image) {
    img.Valid() && img.width >= CropLeft + CropRightMargin && img.height >= CropTop
  }

  /** `FrameWindow.cropped_image`: the fixed region of the frame, of size
      (width - 1431) x (height - 51), pixel (x, y) taken from (x + 600, y + 51). */
  function CroppedImage(img: Image): (r: Image)
    requires Croppable(img)
    ensures r.Valid()
    ensures r.width == img.width - 1431 && r.height == img.height - 51
    ensures forall x: nat, y: nat | x < r.width && y < r.height ::
              r.At(x, y) == img.At(x + 600, y + 51)
  {
    Crop(img, CropBox(img.width, img.height))
  }

  /** `name` is taken when either derived file already exists. */
  predicate Taken(existing: set<string>, loc: string, name: string) {
    FullPath(loc, name) in existing || CroppedPath(loc, name) in existing
  }

  datatype SaveOutcome = EmptyName | NameTaken | Written

  datatype SaveResult = SaveResult(outcome: SaveOutcome, files: map<string, Image>)

  /** What `save_images` does to the files of the filesystem, path by path. */
  function Save(files: map<string, Image>, loc: string, name: string, full: Image, cropped: Image): (r: SaveResult)
    ensures r.outcome == EmptyName <==> name == ""
    ensures r.outcome == NameTaken <==> name != "" && Taken(files.Keys, loc, name)
    ensures r.outcome != Written ==> r.files == files
    ensures r.outcome == Written ==>
              r.files.Keys == files.Keys + {FullPath(loc, name), CroppedPath(loc, name)} &&
              r.files[FullPath(loc, name)] == full && r.files[CroppedPath(loc, name)] == cropped
    ensures forall p | p in files :: p in r.files && r.files[p] == files[p]
  {
    if name == "" then SaveResult(EmptyName, files)
    else if Taken(files.Keys, loc, name) then SaveResult(NameTaken, files)
    else
      DerivedPathsDistinct(loc, name);
      SaveResult(Written, files[FullPath(loc, name) := full][CroppedPath(loc, name) := cropped])
  }

  /** A second save under a name that was just written is refused and
      leaves the first pair of files as they are. */
  lemma SecondSaveRefused(files: map<string, Image>, loc: string, name: string,
                          full1: Image, cropped1: Image, full2: Image, cropped2: Image)
    requires Save(files, loc, name, full1, cropped1).outcome == Written
    ensures var first := Save(files, loc, name, full1, cropped1);
            var second := Save(first.files, loc, name, full2, cropped2);
            second.outcome == NameTaken && second.files == first.files &&
            second.files[FullPath(loc, name)] == full1 && second.files[CroppedPath(loc, name)] == cropped1
  {
  }

  /** Writing the files of one name takes no other name. */
  lemma SaveTakesOnlyItsName(files: map<string, Image>, loc: string, name: string,
                             full: Image, cropped: Image, other: string)
    requires Save(files, loc, name, full, cropped).outcome == Written
    ensures Taken(Save(files, loc, name, full, cropped).files.Keys, loc, other) <==>
            other == name || Taken(files.Keys, loc, other)
  {
    DerivedPathsSeparate(loc, name, other);
    DerivedPathsSeparate(loc, other, name);
  }

  /** The filesystem: what lies at each path. */
  class Disk {
    var files: map<string, Image>

    constructor (files: map<string, Image>)
      ensures this.files == files
    {
      this.files := files;
    }

    /** Writes `img` at `path`, replacing whatever was there. */
    method Write(path: string, img: Image)
      modifies this
      ensures files == old(files)[path := img]
    {
      files := files[path := img];
    }
  }

  /** The preview dialog opened on a captured frame. */
  class FrameWindow {
    const image: Image
    const saveLocation: string
    const croppedFrameImage: Image
    var open: bool

    /** Shows the frame beside its crop; `exec()` keeps it open until saved
        or dismissed. */
    constructor (image: Image, saveLocation: string)
      requires Croppable(image)
      ensures this.image == image && this.saveLocation == saveLocation
      ensures croppedFrameImage == CroppedImage(image)
      ensures open
    {
      this.image := image;
      this.saveLocation := saveLocation;
      this.croppedFrameImage := CroppedImage(image);
      open := true;
    }

    /** `file_name_is_unique`: neither derived file exists yet. */
    method FileNameIsUnique(name: string, disk: Disk) returns (unique: bool)
      ensures unique <==> FullPath(saveLocation, name) !in disk.files &&
                          CroppedPath(saveLocation, name) !in disk.files
    {
      var full := FullPath(saveLocation, name);
      var cropped := CroppedPath(saveLocation, name);
      if full in disk.files || cropped in disk.files {
        return false;
      }
      return true;
    }

    /** `save_images`, with the text of the name box as `name`: an empty
        name does nothing; a taken name reports "File Name Taken" and keeps
        the dialog open; otherwise both images are written and the dialog
        closes. */
    method SaveImages(name: string, disk: Disk) returns (outcome: SaveOutcome)
      modifies this, disk
      ensures var r := Save(old(disk.files), saveLocation, name, image, croppedFrameImage);
              outcome == r.outcome && disk.files == r.files
      ensures open == (old(open) && outcome != Written)
    {
      if name == "" {
        return EmptyName;
      }
      var unique := FileNameIsUnique(name, disk);
      if unique {
        disk.Write(FullPath(saveLocation, name), image);
        disk.Write(CroppedPath(saveLocation, name), croppedFrameImage);
        open := false;
        outcome := Written;
      } else {
        outcome := NameTaken;
      }
    }
  }
}
