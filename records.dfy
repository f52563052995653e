/** The records served by the remote directory: users, posts and comments. */
module Records {
  /** Coordinates are carried as the directory sends them, as text. */
  datatype Geo = Geo(lat: string, lng: string)

  datatype Address = Address(street: string, suite: string, city: string, zipcode: string, geo: Geo)

  datatype User = User(id: int, name: string, username: string, email: string, phone: string, address: Address)

  /** A post; `userId` refers to its author. */
  datatype Post = Post(userId: int, id: int, title: string, body: string)

  /** A comment; `postId` refers to the post it belongs to. */
  datatype Comment = Comment(postId: int, id: int, name: string, email: string, body: string)
}
