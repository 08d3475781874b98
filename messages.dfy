/** Chat messages as the providers' chat-completion APIs and the front end exchange them. */
module Messages {

  datatype Role = System | User | Assistant

  datatype Message = Message(role: Role, content: string)
}
