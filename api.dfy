/** The recipe record the web client receives from `GET /recipes`
    (web/src/lib/api.ts), reduced to the fields the pages compute with.
    `createdAt` is the ISO timestamp already converted by
    `new Date(..).getTime()` to milliseconds; `authorName` is `author.name`. */
module Api {
  import opened Wrappers

  datatype Recipe = Recipe(
    id: string,
    title: string,
    description: Option<string>,
    difficulty: Option<string>,
    authorName: string,
    createdAt: int,
    averageRating: real)
}
