/** `ProductImageService` (backend): the image table of the product
    catalogue. Each product has at most one main image; uploading a main
    image or choosing one clears the flag on the product's other images. The
    file store (S3) is a parameter: an upload arrives as the store's outcome,
    the file name and URL it stored the file under or the failure it threw,
    and a deletion as the outcome of removing the file. */
module ProductImages {
  import opened Wrappers
  import opened JavaLang
  import opened Failures

  /** The `ProductImage` entity's fields the service writes. */
  datatype ProductImage = ProductImage(
    productId: int, imageUrl: string, fileName: string, fileType: Option<string>, fileSize: int, isMain: bool)

  /** A file already handed to the store: the name and URL it was stored
      under, and the part's content type and size. */
  datatype StoredFile = StoredFile(fileName: string, url: string, contentType: Option<string>, size: int)

  function ProductNotFound(id: int): Failure
  {
    ResourceNotFound("Product not found with id: " + IntToString(id))
  }

  function ImageNotFound(id: int): Failure
  {
    ResourceNotFound("Image not found with id: " + IntToString(id))
  }

  function ImageNotForProduct(productId: int): Failure
  {
    ResourceNotFound("Image not found for product with id: " + IntToString(productId))
  }

  /** No product has two main images. */
  predicate AtMostOneMain(images: map<int, ProductImage>)
  {
    forall i, j ::
      (i in images && j in images && images[i].isMain && images[j].isMain
       && images[i].productId == images[j].productId) ==> i == j
  }

  /** The `findByProductIdAndIsMain(productId, true)` images, each set to
      not main; nothing else changes. */
  function ClearMain(images: map<int, ProductImage>, productId: int): (r: map<int, ProductImage>)
    ensures r.Keys == images.Keys
    ensures forall k :: k in r ==> r[k] == images[k].(isMain := images[k].isMain && images[k].productId != productId)
  {
    map k | k in images :: images[k].(isMain := images[k].isMain && images[k].productId != productId)
  }

  /** The table after an upload under the fresh id `id`. */
  function Uploaded(images: map<int, ProductImage>, id: int, productId: int, file: StoredFile, isMain: bool)
    : map<int, ProductImage>
  {
    var image := ProductImage(productId, file.url, file.fileName, file.contentType, file.size, isMain);
    (if isMain then ClearMain(images, productId) else images)[id := image]
  }

  /** The table after `imageId` becomes its product's main image. */
  function MainChosen(images: map<int, ProductImage>, imageId: int): map<int, ProductImage>
    requires imageId in images
  {
    ClearMain(images, images[imageId].productId)[imageId := images[imageId].(isMain := true)]
  }

  /** An upload keeps at most one main image per product; the new image is
      main exactly when asked; a non-main upload leaves every existing image
      as it was, and a main one changes only main flags of that product. */
  lemma UploadedKeepsOneMain(images: map<int, ProductImage>, id: int, productId: int, file: StoredFile,
                             isMain: bool)
    requires AtMostOneMain(images) && id !in images
    ensures var r := Uploaded(images, id, productId, file, isMain);
      AtMostOneMain(r) && r.Keys == images.Keys + {id} && r[id].isMain == isMain && r[id].productId == productId
    ensures !isMain ==> forall k :: k in images ==> Uploaded(images, id, productId, file, isMain)[k] == images[k]
    ensures isMain ==> forall k :: k in images ==>
      var after := Uploaded(images, id, productId, file, isMain)[k];
      after == images[k].(isMain := after.isMain) && (after.isMain <==> images[k].isMain && images[k].productId != productId)
  {
  }

  /** After choosing, the chosen image is its product's only main image,
      images of other products are untouched, and every image keeps all but
      its main flag. */
  lemma MainChosenIsOnlyMain(images: map<int, ProductImage>, imageId: int)
    requires imageId in images && AtMostOneMain(images)
    ensures var r := MainChosen(images, imageId);
      AtMostOneMain(r) && r.Keys == images.Keys && r[imageId].isMain
      && forall k :: k in r && k != imageId && r[k].productId == images[imageId].productId ==> !r[k].isMain
    ensures var r := MainChosen(images, imageId);
      forall k :: k in images && images[k].productId != images[imageId].productId ==> r[k] == images[k]
    ensures var r := MainChosen(images, imageId);
      forall k :: k in images ==> r[k] == images[k].(isMain := r[k].isMain)
  {
  }

  /** Choosing the same image twice changes nothing the second time. */
  lemma MainChosenIdempotent(images: map<int, ProductImage>, imageId: int)
    requires imageId in images && AtMostOneMain(images)
    ensures MainChosen(MainChosen(images, imageId), imageId) == MainChosen(images, imageId)
  {
    var r := MainChosen(images, imageId);
    MainChosenIsOnlyMain(images, imageId);
    assert MainChosen(r, imageId) == r;
  }

  /** The image table, with the product ids that exist. */
  class ProductImageService {
    var images: map<int, ProductImage>
    var nextId: int
    const products: set<int>

    predicate Valid()
      reads this
    {
      (forall k :: k in images ==> k < nextId) && AtMostOneMain(images)
    }

    constructor (products: set<int>)
      ensures images == map[] && nextId == 1 && this.products == products
      ensures Valid()
    {
      images := map[];
      nextId := 1;
      this.products := products;
    }

    /** `getProductImages`: the ids of the product's images. */
    function ProductImageIds(productId: int): (r: set<int>)
      reads this
      ensures forall k :: k in r <==> k in images && images[k].productId == productId
    {
      set k | k in images && images[k].productId == productId
    }

    /** `uploadImage`: an unknown product stores nothing, and neither does a
        failed upload to the store, whose failure the call throws; otherwise
        the image is stored under a fresh id, after clearing the product's
        main flags when it is to be main. */
    method UploadImage(productId: int, upload: Result<StoredFile, Failure>, isMain: bool)
      returns (r: Result<ProductImage, Failure>)
      requires Valid()
      modifies this`images, this`nextId
      ensures Valid()
      ensures productId !in products ==> r == Err(ProductNotFound(productId)) && unchanged(this)
      ensures productId in products && upload.Err? ==> r == Err(upload.error) && unchanged(this)
      ensures productId in products && upload.Ok? ==>
        r.Ok? && old(nextId) !in old(images)
        && images == Uploaded(old(images), old(nextId), productId, upload.value, isMain)
        && r.value == images[old(nextId)]
    {
      if productId !in products {
        return Err(ProductNotFound(productId));
      }
      if upload.Err? {
        return Err(upload.error);
      }
      var file := upload.value;
      UploadedKeepsOneMain(images, nextId, productId, file, isMain);
      if isMain {
        images := ClearMain(images, productId);
      }
      var image := ProductImage(productId, file.url, file.fileName, file.contentType, file.size, isMain);
      images := images[nextId := image];
      r := Ok(image);
      nextId := nextId + 1;
    }

    /** `deleteImage`: an unknown image, or one of another product, is an
        error that deletes nothing; so is a failed removal of the file from
        the store, which comes before the row's; otherwise exactly that image
        goes. */
    method DeleteImage(productId: int, imageId: int, removal: Result<(), Failure>) returns (r: Result<(), Failure>)
      requires Valid()
      modifies this`images
      ensures Valid()
      ensures imageId !in old(images) ==> r == Err(ImageNotFound(imageId)) && images == old(images)
      ensures imageId in old(images) && old(images)[imageId].productId != productId ==>
        r == Err(ImageNotForProduct(productId)) && images == old(images)
      ensures imageId in old(images) && old(images)[imageId].productId == productId && removal.Err? ==>
        r == Err(removal.error) && images == old(images)
      ensures imageId in old(images) && old(images)[imageId].productId == productId && removal.Ok? ==>
        r == Ok(()) && images == old(images) - {imageId}
    {
      if imageId !in images {
        return Err(ImageNotFound(imageId));
      }
      if images[imageId].productId != productId {
        return Err(ImageNotForProduct(productId));
      }
      if removal.Err? {
        return Err(removal.error);
      }
      images := images - {imageId};
      r := Ok(());
    }

    /** `setMainImage`: the same two errors; otherwise the image becomes its
        product's only main image. */
    method SetMainImage(productId: int, imageId: int) returns (r: Result<ProductImage, Failure>)
      requires Valid()
      modifies this`images
      ensures Valid()
      ensures imageId !in old(images) ==> r == Err(ImageNotFound(imageId)) && images == old(images)
      ensures imageId in old(images) && old(images)[imageId].productId != productId ==>
        r == Err(ImageNotForProduct(productId)) && images == old(images)
      ensures imageId in old(images) && old(images)[imageId].productId == productId ==>
        images == MainChosen(old(images), imageId) && r == Ok(images[imageId])
    {
      if imageId !in images {
        return Err(ImageNotFound(imageId));
      }
      if images[imageId].productId != productId {
        return Err(ImageNotForProduct(productId));
      }
      MainChosenIsOnlyMain(images, imageId);
      var image := images[imageId];
      images := ClearMain(images, productId);
      images := images[imageId := image.(isMain := true)];
      r := Ok(images[imageId]);
    }
  }
}
