/** A message between two parties. The creation time stamp is not part of
    this model. */
module Messages {

  datatype Message = Message(sender: string, recipient: string, content: string, sticky: bool := false)
}
