/** The record shapes the parsers and the normalizer exchange
    (src/parsers/abstract/interfaces). An optional field, and a field the
    source sets to `null`, is an `Option`. */
module Records {
  import opened Js

  datatype Author = Author(
    name: string,
    uri: Option<string>,
    description: Option<string>,
    thumbnailImg: Option<string>)

  /** A reference to one song page, with the author it was listed under. */
  datatype SongIdentificator = SongIdentificator(uri: string, author: Option<Author>)

  /** One translation link; `title` is the wire field `translatin`. */
  datatype Translation = Translation(title: string, href: Option<string>)

  datatype DetailedAlbum = DetailedAlbum(
    title: string,
    author: Option<Author>,
    thumbnailImg: Option<string>,
    href: Option<string>)

  datatype DetailedSong = DetailedSong(
    title: string,
    songText: Option<string>,
    url: string,
    audioMp3: Option<string>,
    videoAttachment: Option<string>,
    tags: Option<seq<string>>,
    chordsKey: Option<string>,
    translations: seq<Translation>,
    album: Option<DetailedAlbum>)

  datatype NormalizedAlbum = NormalizedAlbum(
    title: string,
    thumbnailImg: Option<string>,
    author: Option<Author>,
    year: Option<string>,
    text: Option<string>,
    href: Option<string>)

  datatype NormalizedSong = NormalizedSong(
    title: string,
    songText: Option<string>,
    url: string,
    audioMp3: Option<string>,
    videoAttachment: Option<string>,
    tags: Option<seq<string>>,
    translations: seq<Translation>,
    chordsKey: Option<string>,
    album: NormalizedAlbum)
}
